/**
 * The student's list of open feedback forms: the time left before a form closes
 * in whole hours rounded up, the modal that collects a 1-5 rating and a comment
 * for the selected form, and its submission.
 */
module StudentFeedbackForm {
  import opened Common

  /** Milliseconds in an hour, the divisor of `calculateRemainingTime`. */
  const HourMs := 3600000

  /** `Math.ceil(diffMs / HourMs)` on integer milliseconds. */
  function RemainingHours(diffMs: int): (h: int)
    ensures HourMs * (h - 1) < diffMs <= HourMs * h
  {
    0 - ((0 - diffMs) / HourMs)
  }

  /** Any whole number of hours satisfying the ceiling bounds is the one
      `RemainingHours` gives. */
  lemma RemainingHoursUnique(diffMs: int, h: int)
    requires HourMs * (h - 1) < diffMs <= HourMs * h
    ensures h == RemainingHours(diffMs)
  {
  }

  /** The hours left never grow as the clock advances. */
  lemma RemainingHoursMonotone(closingMs: int, now1: int, now2: int)
    requires now1 <= now2
    ensures RemainingHours(closingMs - now2) <= RemainingHours(closingMs - now1)
  {
  }

  const Closed := "Closed"
  const HoursSuffix := " hours remaining"

  /** `calculateRemainingTime`: "N hours remaining" while N is positive,
      "Closed" otherwise. */
  function RemainingTime(closingMs: int, nowMs: int): (text: string)
    ensures text == Closed <==> closingMs <= nowMs
    ensures closingMs > nowMs ==>
      0 < RemainingHours(closingMs - nowMs)
      && text == NatToString(RemainingHours(closingMs - nowMs)) + HoursSuffix
  {
    var h := RemainingHours(closingMs - nowMs);
    if h > 0 then
      var t := NatToString(h) + HoursSuffix;
      assert t[|t| - 1] != Closed[|Closed| - 1];
      t
    else Closed
  }

  /** The number a "N hours remaining" label shows is read back by `parseInt` as
      the ceiling of the hours left. */
  lemma RemainingTimeReadsBack(closingMs: int, nowMs: int)
    requires closingMs > nowMs
    ensures ParseInt(RemainingTime(closingMs, nowMs)) == Some(RemainingHours(closingMs - nowMs))
  {
    ParseIntOfNatToStringThen(RemainingHours(closingMs - nowMs), HoursSuffix);
  }

  /** A feedback form notification as the backend lists it; `closingMs` is the
      closing date in milliseconds. */
  datatype FormNotice = FormNotice(id: string, title: string, description: string, closingMs: int, urgent: bool)

  /** `feedbackSubmission`: `formId` is `None` for `null`. */
  datatype Submission = Submission(rating: nat, comment: string, formId: Option<string>)

  const EmptySubmission := Submission(0, "", None)

  const SubmitPrefix := "/api/feedback/submit/"

  datatype SubmitRequest = SubmitRequest(path: string, body: Submission)

  const SubmittedAlert := "Feedback submitted successfully!"
  const FailedAlert := "Failed to submit feedback"

  class FeedbackForms {
    var notifications: seq<FormNotice>
    var selected: Option<FormNotice>
    var submission: Submission

    constructor ()
      ensures notifications == [] && selected == None && submission == EmptySubmission
    {
      notifications := [];
      selected := None;
      submission := EmptySubmission;
    }

    /** The mount effect: the fetched list replaces the empty one; a failed fetch
        is only logged. */
    method FetchNotifications(outcome: Outcome<seq<FormNotice>>)
      modifies this`notifications
      ensures outcome.Ok? ==> notifications == outcome.data
      ensures !outcome.Ok? ==> notifications == old(notifications)
    {
      if outcome.Ok? {
        notifications := outcome.data;
      }
    }

    /** Submitting is disabled while no rating is chosen (`!rating`). */
    predicate CanSubmit()
      reads this
    {
      submission.rating != 0
    }

    /** `handleSelectForm`: a fresh submission for the chosen form. */
    method HandleSelectForm(form: FormNotice)
      modifies this`selected, this`submission
      ensures selected == Some(form)
      ensures submission == Submission(0, "", Some(form.id)) && !CanSubmit()
    {
      selected := Some(form);
      submission := Submission(0, "", Some(form.id));
    }

    /** A rating button: only the rating changes, and submitting is enabled. */
    method SelectRating(rating: nat)
      requires 1 <= rating <= 5
      modifies this`submission
      ensures submission == old(submission).(rating := rating) && CanSubmit()
    {
      submission := submission.(rating := rating);
    }

    method EditComment(value: string)
      modifies this`submission
      ensures submission == old(submission).(comment := value)
    {
      submission := submission.(comment := value);
    }

    /** The close and cancel buttons: the submission is kept. */
    method CloseModal()
      modifies this`selected
      ensures selected == None
    {
      selected := None;
    }

    /** `handleSubmitFeedback`: the submission is posted to the selected form's
        path; success clears the selection and the submission; any failure,
        including reading the id of no selection, only alerts. */
    method HandleSubmitFeedback(outcome: Outcome<()>) returns (request: Option<SubmitRequest>, alert: string)
      modifies this`selected, this`submission
      ensures old(selected).None? ==>
        request == None && alert == FailedAlert && selected == None && submission == old(submission)
      ensures old(selected).Some? ==>
        request == Some(SubmitRequest(SubmitPrefix + old(selected).value.id, old(submission)))
      ensures old(selected).Some? && outcome.Ok? ==>
        alert == SubmittedAlert && selected == None && submission == EmptySubmission
      ensures old(selected).Some? && !outcome.Ok? ==>
        alert == FailedAlert && selected == old(selected) && submission == old(submission)
    {
      if selected.None? {
        return None, FailedAlert;
      }
      request := Some(SubmitRequest(SubmitPrefix + selected.value.id, submission));
      if outcome.Ok? {
        alert := SubmittedAlert;
        selected := None;
        submission := EmptySubmission;
      } else {
        alert := FailedAlert;
      }
    }
  }
}
