/**
 * The student's instructor-feedback form: picking a course card selects its
 * instructor, five 1-5 ratings and a comment are entered as strings, and the
 * submission carries the mean of the positive ratings rounded half up
 * (`Math.round`) together with every rating parsed (`parseInt(r) || 0`).
 */
module StudentFacultyFeedback {
  import opened Common

  datatype FField = CourseId | InstructorId | MaterialExplanationRating | ObjectivesClarityRating
                  | ContentRelevanceRating | AssignmentClarityRating | GradingCriteriaRating | AdditionalComments

  const AllFields: set<FField> := {CourseId, InstructorId, MaterialExplanationRating, ObjectivesClarityRating,
    ContentRelevanceRating, AssignmentClarityRating, GradingCriteriaRating, AdditionalComments}

  /** The five rating fields, in the order the submission lists them. */
  const RatingFields: seq<FField> := [MaterialExplanationRating, ObjectivesClarityRating,
    ContentRelevanceRating, AssignmentClarityRating, GradingCriteriaRating]

  lemma AllFieldsListed()
    ensures forall f: FField :: f in AllFields
  {
    forall f: FField ensures f in AllFields {
      match f {
        case CourseId => case InstructorId => case MaterialExplanationRating => case ObjectivesClarityRating =>
        case ContentRelevanceRating => case AssignmentClarityRating => case GradingCriteriaRating =>
        case AdditionalComments =>
      }
    }
  }

  predicate Complete(values: map<FField, string>)
  {
    forall f: FField :: f in values
  }

  function BlankValues(): (values: map<FField, string>)
    ensures Complete(values) && forall f :: values[f] == ""
  {
    AllFieldsListed();
    map f | f in AllFields :: ""
  }

  /** A rating as the filter reads it: `None` when it is empty or not a number. */
  function ParsedRating(r: string): Option<int>
  {
    if r == "" then None else ParseInt(r)
  }

  predicate Positive(o: Option<int>)
  {
    o.Some? && o.value > 0
  }

  /** The filter `r && parseInt(r) > 0`. */
  predicate IsPositiveRating(r: string)
  {
    Positive(ParsedRating(r))
  }

  function ParsedRatings(ratings: seq<string>): (ps: seq<Option<int>>)
    ensures |ps| == |ratings| && forall i :: 0 <= i < |ps| ==> ps[i] == ParsedRating(ratings[i])
  {
    seq(|ratings|, i requires 0 <= i < |ratings| => ParsedRating(ratings[i]))
  }

  /** The values that pass the filter, in order. */
  function PositiveValues(ps: seq<Option<int>>): (p: seq<int>)
    ensures |p| <= |ps|
    ensures forall i :: 0 <= i < |p| ==> p[i] > 0
    ensures |p| == 0 <==> forall i :: 0 <= i < |ps| ==> !Positive(ps[i])
  {
    if ps == [] then []
    else
      var rest := PositiveValues(ps[1..]);
      assert forall i :: 1 <= i < |ps| ==> ps[i] == ps[1..][i - 1];
      if Positive(ps[0]) then [ps[0].value] + rest else rest
  }

  /** The parsed values of the ratings that pass the filter, in order. */
  function PositiveRatings(ratings: seq<string>): (p: seq<int>)
    ensures forall i :: 0 <= i < |p| ==> p[i] > 0
    ensures |p| == 0 <==> forall i :: 0 <= i < |ratings| ==> !IsPositiveRating(ratings[i])
  {
    PositiveValues(ParsedRatings(ratings))
  }

  function Sum(p: seq<int>): int
  {
    if p == [] then 0 else p[0] + Sum(p[1..])
  }

  /** `Math.round(sum / n)` for a non-negative mean: the nearest integer, halves
      rounded up. */
  function RoundHalfUp(sum: nat, n: nat): nat
    requires n > 0
  {
    (2 * sum + n) / (2 * n)
  }

  /** The rounded mean lies within half of the mean. */
  lemma RoundHalfUpBounds(sum: nat, n: nat)
    requires n > 0
    ensures var r := RoundHalfUp(sum, n); n * (2 * r - 1) <= 2 * sum < n * (2 * r + 1)
  {
    var r := RoundHalfUp(sum, n);
    assert 2 * n * r <= 2 * sum + n < 2 * n * (r + 1);
  }

  lemma MulCancel(n: int, a: int, b: int)
    requires n > 0 && n * a < n * b
    ensures a < b
  {
  }

  /** At most one integer lies within half of the mean, so `RoundHalfUp` is it. */
  lemma RoundHalfUpUnique(sum: nat, n: nat, k: int)
    requires n > 0 && n * (2 * k - 1) <= 2 * sum < n * (2 * k + 1)
    ensures k == RoundHalfUp(sum, n)
  {
    var r: int := RoundHalfUp(sum, n);
    RoundHalfUpBounds(sum, n);
    MulCancel(n, 2 * k - 1, 2 * r + 1);
    MulCancel(n, 2 * r - 1, 2 * k + 1);
  }

  lemma {:induction false} SumBounds(p: seq<int>, lo: int, hi: int)
    requires forall i :: 0 <= i < |p| ==> lo <= p[i] <= hi
    ensures |p| * lo <= Sum(p) <= |p| * hi
  {
    if p != [] {
      SumBounds(p[1..], lo, hi);
    }
  }

  lemma {:induction false} SumAtLeastLength(p: seq<int>)
    requires forall i :: 0 <= i < |p| ==> p[i] > 0
    ensures Sum(p) >= |p|
  {
    if p != [] {
      SumAtLeastLength(p[1..]);
    }
  }

  /** A mean of at least 1 never rounds to 0. */
  lemma RoundedMeanPositive(sum: int, n: int, r: int)
    requires n > 0 && sum >= n && 2 * sum < n * (2 * r + 1)
    ensures r >= 1
  {
    MulCancel(n, 2, 2 * r + 1);
  }

  /** `Math.round(sum / n)` of positive ratings, which is at least 1. */
  function RoundedMean(p: seq<int>): (r: nat)
    requires |p| > 0 && forall i :: 0 <= i < |p| ==> p[i] > 0
    ensures r >= 1
  {
    SumAtLeastLength(p);
    var r := RoundHalfUp(Sum(p), |p|);
    RoundHalfUpBounds(Sum(p), |p|);
    RoundedMeanPositive(Sum(p), |p|, r);
    r
  }

  /** The submitted overall rating: 0 when no rating passes the filter, else the
      rounded mean of those that do. */
  function OverallRating(ratings: seq<string>): (r: int)
    ensures r >= 0
    ensures r == 0 <==> forall i :: 0 <= i < |ratings| ==> !IsPositiveRating(ratings[i])
  {
    var p := PositiveRatings(ratings);
    if |p| == 0 then 0
    else
      RoundedMean(p)
  }

  /** A rating's share of the sum taken directly over the inputs: its parsed
      value when it passes the filter, nothing otherwise. */
  function PassingValue(r: string): int
  {
    if IsPositiveRating(r) then ParsedRating(r).value else 0
  }

  /** The sum of the passing ratings' parsed values, read straight off the inputs. */
  function PositiveSum(ratings: seq<string>): int
  {
    if ratings == [] then 0 else PassingValue(ratings[0]) + PositiveSum(ratings[1..])
  }

  /** How many of the ratings pass the filter. */
  function PositiveCount(ratings: seq<string>): nat
  {
    if ratings == [] then 0
    else (if IsPositiveRating(ratings[0]) then 1 else 0) + PositiveCount(ratings[1..])
  }

  /** The filtered list has one entry per passing rating, and its `reduce`
      total is the sum of the passing ratings' values. */
  lemma {:induction false} PositiveRatingsAgree(ratings: seq<string>)
    ensures |PositiveRatings(ratings)| == PositiveCount(ratings)
    ensures Sum(PositiveRatings(ratings)) == PositiveSum(ratings)
  {
    if ratings != [] {
      PositiveRatingsAgree(ratings[1..]);
      assert ParsedRatings(ratings)[1..] == ParsedRatings(ratings[1..]);
    }
  }

  /** Once a rating passes the filter, the overall rating is the mean of the
      passing ratings rounded half up; with `RoundHalfUpBounds` and
      `RoundHalfUpUnique` this pins it down as `Math.round` of that mean. */
  lemma OverallRatingIsRoundedMean(ratings: seq<string>)
    requires PositiveCount(ratings) > 0
    ensures PositiveSum(ratings) >= PositiveCount(ratings)
    ensures OverallRating(ratings) == RoundHalfUp(PositiveSum(ratings), PositiveCount(ratings))
  {
    PositiveRatingsAgree(ratings);
    SumAtLeastLength(PositiveRatings(ratings));
  }

  /** The dropdown offers "" and "1" to "5". */
  predicate DropdownValue(r: string)
  {
    r == "" || (|r| == 1 && '1' <= r[0] <= '5')
  }

  lemma DropdownRating(r: string)
    requires DropdownValue(r) && r != ""
    ensures IsPositiveRating(r) && 1 <= ParsedRating(r).value <= 5
  {
    assert r == [r[0]];
    ParseIntOfDigit(r[0]);
  }

  lemma {:induction false} PositiveValuesInRange(ps: seq<Option<int>>)
    requires forall i :: 0 <= i < |ps| ==> ps[i].None? || 1 <= ps[i].value <= 5
    ensures forall i :: 0 <= i < |PositiveValues(ps)| ==> PositiveValues(ps)[i] <= 5
  {
    if ps != [] {
      assert forall i :: 0 <= i < |ps[1..]| ==> ps[1..][i] == ps[i + 1];
      PositiveValuesInRange(ps[1..]);
    }
  }

  lemma DropdownRatingsInRange(ratings: seq<string>)
    requires forall i :: 0 <= i < |ratings| ==> DropdownValue(ratings[i])
    ensures forall i :: 0 <= i < |PositiveRatings(ratings)| ==> 1 <= PositiveRatings(ratings)[i] <= 5
  {
    var ps := ParsedRatings(ratings);
    forall i | 0 <= i < |ps| ensures ps[i].None? || 1 <= ps[i].value <= 5 {
      if ratings[i] != "" {
        DropdownRating(ratings[i]);
      }
    }
    PositiveValuesInRange(ps);
  }

  /** With the dropdown's values the overall rating is at most 5, and at least
      1 once any rating is chosen. */
  lemma OverallRatingInRange(ratings: seq<string>)
    requires forall i :: 0 <= i < |ratings| ==> DropdownValue(ratings[i])
    ensures 0 <= OverallRating(ratings) <= 5
    ensures (exists i :: 0 <= i < |ratings| && ratings[i] != "") ==> 1 <= OverallRating(ratings)
  {
    OverallRatingAtMostFive(ratings);
    if exists i :: 0 <= i < |ratings| && ratings[i] != "" {
      var i :| 0 <= i < |ratings| && ratings[i] != "";
      DropdownRating(ratings[i]);
    }
  }

  lemma OverallRatingAtMostFive(ratings: seq<string>)
    requires forall i :: 0 <= i < |ratings| ==> DropdownValue(ratings[i])
    ensures OverallRating(ratings) <= 5
  {
    var p := PositiveRatings(ratings);
    if |p| > 0 {
      DropdownRatingsInRange(ratings);
      RoundedMeanAtMostFive(p);
    }
  }

  /** Ratings of 1 to 5 have a rounded mean of at most 5. */
  lemma RoundedMeanAtMostFive(p: seq<int>)
    requires |p| > 0 && forall i :: 0 <= i < |p| ==> 1 <= p[i] <= 5
    ensures RoundedMean(p) <= 5
  {
    SumBounds(p, 1, 5);
    RoundedMeanAtMost(Sum(p), |p|, 5);
  }

  /** A mean of at most `hi` rounds to at most `hi`. */
  lemma RoundedMeanAtMost(sum: nat, n: nat, hi: nat)
    requires n > 0 && sum <= n * hi
    ensures RoundHalfUp(sum, n) <= hi
  {
    var r: int := RoundHalfUp(sum, n);
    RoundHalfUpBounds(sum, n);
    assert n * (2 * r - 1) <= 2 * sum <= n * (2 * hi) < n * (2 * hi + 1);
    MulCancel(n, 2 * r - 1, 2 * hi + 1);
  }

  /** A mean exactly halfway between k and k + 1 rounds up, as `Math.round`
      does: ratings 4 and 5 give 5. */
  lemma HalfRoundsUp(sum: nat, n: nat, k: nat)
    requires n > 0 && 2 * sum == n * (2 * k + 1)
    ensures RoundHalfUp(sum, n) == k + 1
  {
    assert n * (2 * (k + 1) + 1) == n * (2 * k + 1) + 2 * n;
    assert n * (2 * (k + 1) - 1) == n * (2 * k + 1);
    RoundHalfUpUnique(sum, n, k + 1);
  }

  /** `parseInt(r) || 0`: NaN becomes 0. */
  function RatingValue(r: string): (v: int)
    ensures ParseInt(r).Some? ==> v == ParseInt(r).value
    ensures ParseInt(r).None? ==> v == 0
  {
    match ParseInt(r)
    case Some(v) => v
    case None => 0
  }

  /** The instructor card chosen: `{ name: course.instructor, courseId: course.id }`. */
  datatype Instructor = Instructor(name: string, courseId: string)

  /** A course card's data. */
  datatype CourseCard = CourseCard(id: string, instructor: string)

  /** The request body of the instructor-feedback call. */
  datatype FeedbackPayload = FeedbackPayload(
    courseId: string, instructorId: string, rating: int,
    materialExplanationRating: int, objectivesClarityRating: int, contentRelevanceRating: int,
    assignmentClarityRating: int, gradingCriteriaRating: int,
    comment: string, additionalComments: string)

  function Ratings(values: map<FField, string>): (rs: seq<string>)
    requires Complete(values)
    ensures |rs| == 5 && forall i :: 0 <= i < 5 ==> rs[i] == values[RatingFields[i]]
  {
    [values[MaterialExplanationRating], values[ObjectivesClarityRating], values[ContentRelevanceRating],
     values[AssignmentClarityRating], values[GradingCriteriaRating]]
  }

  /** The payload for the current fields and the selected instructor. */
  function Payload(values: map<FField, string>, instructor: Instructor): (p: FeedbackPayload)
    requires Complete(values)
    ensures p.courseId == values[CourseId] && p.instructorId == instructor.name
    ensures p.rating == OverallRating(Ratings(values))
    ensures p.materialExplanationRating == RatingValue(values[MaterialExplanationRating])
    ensures p.objectivesClarityRating == RatingValue(values[ObjectivesClarityRating])
    ensures p.contentRelevanceRating == RatingValue(values[ContentRelevanceRating])
    ensures p.assignmentClarityRating == RatingValue(values[AssignmentClarityRating])
    ensures p.gradingCriteriaRating == RatingValue(values[GradingCriteriaRating])
    ensures p.comment == values[AdditionalComments] && p.additionalComments == values[AdditionalComments]
  {
    var comments := OrElse(values[AdditionalComments], "");
    FeedbackPayload(values[CourseId], instructor.name, OverallRating(Ratings(values)),
      RatingValue(values[MaterialExplanationRating]), RatingValue(values[ObjectivesClarityRating]),
      RatingValue(values[ContentRelevanceRating]), RatingValue(values[AssignmentClarityRating]),
      RatingValue(values[GradingCriteriaRating]), comments, comments)
  }

  const SubmittedAlert := "Instructor Feedback Submitted Successfully"
  const FailedPrefix := "Failed to Submit Instructor Feedback: "
  const ErrorAlert := "An error occurred while submitting feedback"

  class FacultyFeedback {
    var selected: Option<Instructor>
    var values: map<FField, string>

    constructor ()
      ensures Complete(values) && values == BlankValues() && selected == None
    {
      values := BlankValues();
      selected := None;
    }

    /** `handleInstructorSelect`: the card's instructor and course are selected
        and copied into the form; ratings and comment are kept. */
    method HandleInstructorSelect(course: CourseCard)
      requires Complete(values)
      modifies this`selected, this`values
      ensures Complete(values)
      ensures selected == Some(Instructor(course.instructor, course.id))
      ensures values[CourseId] == course.id && values[InstructorId] == course.instructor
      ensures forall f :: f != CourseId && f != InstructorId ==> values[f] == old(values)[f]
    {
      selected := Some(Instructor(course.instructor, course.id));
      values := values[CourseId := course.id][InstructorId := course.instructor];
    }

    method HandleFeedbackChange(name: FField, value: string)
      requires Complete(values)
      modifies this`values
      ensures Complete(values)
      ensures values == old(values)[name := value]
      ensures forall f :: f != name ==> values[f] == old(values)[f]
    {
      values := values[name := value];
    }

    /** `submitInstructorFeedback`: without a selection reading its name throws
        and nothing is sent; otherwise the payload is sent, and on success the
        selection is cleared and every field reset. `alert` is the message shown. */
    method SubmitInstructorFeedback(outcome: Outcome<()>) returns (request: Option<FeedbackPayload>, alert: string)
      requires Complete(values)
      modifies this`selected, this`values
      ensures Complete(values)
      ensures old(selected).None? ==>
        request == None && alert == ErrorAlert && selected == old(selected) && values == old(values)
      ensures old(selected).Some? ==> request == Some(Payload(old(values), old(selected).value))
      ensures old(selected).Some? && outcome.Ok? ==>
        alert == SubmittedAlert && selected == None && values == BlankValues()
      ensures old(selected).Some? && outcome.ServerError? ==>
        alert == FailedPrefix + outcome.message && selected == old(selected) && values == old(values)
      ensures old(selected).Some? && outcome.NetworkError? ==>
        alert == ErrorAlert && selected == old(selected) && values == old(values)
    {
      if selected.None? {
        return None, ErrorAlert;
      }
      request := Some(Payload(values, selected.value));
      match outcome {
        case Ok(_) =>
          alert := SubmittedAlert;
          selected := None;
          values := BlankValues();
        case ServerError(text) =>
          alert := FailedPrefix + text;
        case NetworkError =>
          alert := ErrorAlert;
      }
    }

    /** `closeModal`: only the selection is cleared. */
    method CloseModal()
      modifies this`selected
      ensures selected == None
    {
      selected := None;
    }
  }
}
