/**
 * The admin form that announces a new feedback form: a title chosen among five
 * form types (the last one, "CUSTOM", asks for a title of its own), a
 * description, a closing date and an urgency flag.
 */
module AdminFeedbackForm {
  import opened Common

  const Custom := "CUSTOM"

  /** `feedbackFormTypes`, in the order the select lists them. */
  const FormTypes: seq<string> := ["COURSE_FEEDBACK", "EVENT_FEEDBACK", "INSTRUCTOR_FEEDBACK", "CAMPUS_SERVICES", Custom]

  /** The position of the first '_' in `s`, if there is one. */
  function FirstUnderscore(s: string): (k: Option<nat>)
    ensures k.None? <==> '_' !in s
    ensures k.Some? ==> k.value < |s| && s[k.value] == '_' && '_' !in s[..k.value]
  {
    if s == [] then None
    else if s[0] == '_' then Some(0)
    else match FirstUnderscore(s[1..])
      case None => None
      case Some(k) =>
        assert s[..k + 1] == [s[0]] + s[1..][..k];
        Some(k + 1)
  }

  /** `type.replace('_', ' ')`: a string pattern replaces its first occurrence
      only. */
  function TypeLabel(s: string): (r: string)
    ensures |r| == |s|
  {
    match FirstUnderscore(s)
    case None => s
    case Some(k) => s[..k] + " " + s[k + 1..]
  }

  /** The label keeps every character but the first underscore, which becomes a
      space; a later underscore stays. */
  lemma TypeLabelAt(s: string, i: nat)
    requires i < |s|
    ensures TypeLabel(s)[i] == if s[i] == '_' && '_' !in s[..i] then ' ' else s[i]
  {
    match FirstUnderscore(s)
    case None =>
    case Some(k) =>
      if i < k {
        assert s[i] in s[..k];
      } else if k < i {
        assert s[k] == s[..i][k];
      }
  }

  /** A string without underscores is its own label. */
  lemma TypeLabelWithoutUnderscore(s: string)
    requires '_' !in s
    ensures TypeLabel(s) == s
  {
  }

  /** The label of p + "_" + q is p + " " + q when p has no underscore: the
      underscore after p is the first one, whatever q holds. */
  lemma TypeLabelOfSplit(p: string, q: string)
    requires '_' !in p
    ensures TypeLabel(p + "_" + q) == p + " " + q
  {
    var s := p + "_" + q;
    assert s[|p|] == '_' && s[..|p|] == p;
    var k := FirstUnderscore(s).value;
    assert k == |p|;
    assert s[..k] == p && s[k + 1..] == q;
  }

  /** "CUSTOM" has no underscore, so it is shown as it is. */
  lemma CustomLabel(name: string)
    requires name == FormTypes[4]
    ensures TypeLabel(name) == "CUSTOM"
  {
    assert '_' !in name by {
      forall i | 0 <= i < |name| ensures name[i] != '_' {
        assert name[i] in "CUSTOM";
      }
    }
    TypeLabelWithoutUnderscore(name);
  }

  /** A name with two underscores keeps the second one. */
  lemma SecondUnderscoreKept(p: string, q: string, r: string)
    requires '_' !in p
    ensures TypeLabel(p + "_" + q + "_" + r) == p + " " + q + "_" + r
  {
    assert p + "_" + q + "_" + r == p + "_" + (q + "_" + r);
    TypeLabelOfSplit(p, q + "_" + r);
    assert p + " " + (q + "_" + r) == p + " " + q + "_" + r;
  }

  /** The inputs of the form; only the urgency input is a checkbox. */
  datatype FormInput = TitleInput | CustomTitleInput | DescriptionInput | ClosingDateInput | UrgentCheckbox

  /** The request body; `None` stands for a `null` (or never typed) custom title.
      The closing date goes as typed. */
  datatype FormPayload = FormPayload(title: string, customTitle: Option<string>, description: string,
                                     closingDate: string, urgent: bool)

  const CreatedAlert := "Notification created successfully!"
  const FailedAlert := "Failed to create notification"

  class NotificationForm {
    var title: string
    var customTitle: Option<string>
    var description: string
    var closingDate: string
    var isUrgent: bool

    /** The four initial fields; `customTitle` is not among them. */
    predicate IsInitial()
      reads this
    {
      title == "" && customTitle == None && description == "" && closingDate == "" && !isUrgent
    }

    constructor ()
      ensures IsInitial()
    {
      title, description, closingDate := "", "", "";
      customTitle := None;
      isUrgent := false;
    }

    /** `handleChange`: the checkbox stores `checked`, every other input its
        `value`; no other field changes. */
    method HandleChange(input: FormInput, value: string, checked: bool)
      modifies this
      ensures input == TitleInput ==> title == value && unchanged(this`customTitle, this`description, this`closingDate, this`isUrgent)
      ensures input == CustomTitleInput ==> customTitle == Some(value) && unchanged(this`title, this`description, this`closingDate, this`isUrgent)
      ensures input == DescriptionInput ==> description == value && unchanged(this`title, this`customTitle, this`closingDate, this`isUrgent)
      ensures input == ClosingDateInput ==> closingDate == value && unchanged(this`title, this`customTitle, this`description, this`isUrgent)
      ensures input == UrgentCheckbox ==> isUrgent == checked && unchanged(this`title, this`customTitle, this`description, this`closingDate)
    {
      match input
      case TitleInput => title := value;
      case CustomTitleInput => customTitle := Some(value);
      case DescriptionInput => description := value;
      case ClosingDateInput => closingDate := value;
      case UrgentCheckbox => isUrgent := checked;
    }

    /** The body `handleSubmit` posts: the custom title travels only with the
        "CUSTOM" type, urgency under the name `urgent`. */
    function Payload(): (p: FormPayload)
      reads this
      ensures p.customTitle.Some? ==> title == Custom && p.customTitle == customTitle
      ensures title == Custom ==> p.customTitle == customTitle
      ensures p.title == title && p.description == description && p.closingDate == closingDate
      ensures p.urgent == isUrgent
    {
      FormPayload(title, if title == Custom then customTitle else None, description, closingDate, isUrgent)
    }

    /** `handleSubmit`: success restores the four initial fields and drops the
        custom title; failure keeps everything. */
    method HandleSubmit(outcome: Outcome<()>) returns (request: FormPayload, alert: string)
      modifies this
      ensures request == old(Payload())
      ensures outcome.Ok? ==> alert == CreatedAlert && IsInitial()
      ensures !outcome.Ok? ==>
        alert == FailedAlert && unchanged(this`title, this`customTitle, this`description, this`closingDate, this`isUrgent)
    {
      request := Payload();
      if outcome.Ok? {
        alert := CreatedAlert;
        title, description, closingDate := "", "", "";
        customTitle := None;
        isUrgent := false;
      } else {
        alert := FailedAlert;
      }
    }
  }
}
