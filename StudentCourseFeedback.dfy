/**
 * The student's course-feedback modal: choosing a course card selects it and
 * copies its id, the rating select and the comment box update one field each,
 * and the submission resets the form only on an ok response.
 */
module StudentCourseFeedback {
  import opened Common

  /** A JSON scalar as the form holds it: the initial rating is the number 0, a
      value from the select is a string. */
  datatype Scalar = Num(n: int) | Str(s: string)

  /** `feedbackData`, which is also the request body. */
  datatype FeedbackData = FeedbackData(courseId: string, rating: Scalar, comment: string)

  const InitialData := FeedbackData("", Num(0), "")

  datatype DataField = CourseIdName | RatingName | CommentName

  /** A course card's data. */
  datatype CourseCard = CourseCard(id: string, courseName: string)

  const SubmittedAlert := "Feedback Submitted Successfully"
  const FailedAlert := "Failed to Submit Feedback"

  /** The record with one field replaced by the text of an input. */
  function WithField(data: FeedbackData, name: DataField, value: string): (r: FeedbackData)
    ensures name == CourseIdName ==> r == data.(courseId := value)
    ensures name == RatingName ==> r == data.(rating := Str(value))
    ensures name == CommentName ==> r == data.(comment := value)
  {
    match name
    case CourseIdName => data.(courseId := value)
    case RatingName => data.(rating := Str(value))
    case CommentName => data.(comment := value)
  }

  /** Changing one field twice keeps only the second value, and changes to two
      different fields commute. */
  lemma WithFieldLastWins(data: FeedbackData, name: DataField, v1: string, v2: string)
    ensures WithField(WithField(data, name, v1), name, v2) == WithField(data, name, v2)
  {
  }

  lemma WithFieldCommutes(data: FeedbackData, n1: DataField, n2: DataField, v1: string, v2: string)
    requires n1 != n2
    ensures WithField(WithField(data, n1, v1), n2, v2) == WithField(WithField(data, n2, v2), n1, v1)
  {
  }

  class CourseFeedback {
    var selected: Option<CourseCard>
    var data: FeedbackData

    constructor ()
      ensures selected == None && data == InitialData
    {
      selected := None;
      data := InitialData;
    }

    /** `handleCourseSelect`: the course is selected and its id copied; rating and
        comment are kept. */
    method HandleCourseSelect(course: CourseCard)
      modifies this`selected, this`data
      ensures selected == Some(course)
      ensures data == old(data).(courseId := course.id)
    {
      selected := Some(course);
      data := data.(courseId := course.id);
    }

    method HandleFeedbackChange(name: DataField, value: string)
      modifies this`data
      ensures data == WithField(old(data), name, value)
    {
      data := WithField(data, name, value);
    }

    /** `submitFeedback`: the record is sent as it is; an ok response clears the
        selection and resets the record, an error response only alerts, and a
        failed request is only logged. */
    method SubmitFeedback(outcome: Outcome<()>) returns (request: FeedbackData, alert: Option<string>)
      modifies this`selected, this`data
      ensures request == old(data)
      ensures outcome.Ok? ==> alert == Some(SubmittedAlert) && selected == None && data == InitialData
      ensures outcome.ServerError? ==> alert == Some(FailedAlert) && selected == old(selected) && data == old(data)
      ensures outcome.NetworkError? ==> alert == None && selected == old(selected) && data == old(data)
    {
      request := data;
      match outcome {
        case Ok(_) =>
          alert := Some(SubmittedAlert);
          selected := None;
          data := InitialData;
        case ServerError(_) =>
          alert := Some(FailedAlert);
        case NetworkError =>
          alert := None;
      }
    }

    /** `closeModal`: the selection is cleared, the record is kept. */
    method CloseModal()
      modifies this`selected
      ensures selected == None
    {
      selected := None;
    }
  }
}
