/**
 * The admin's course-creation form: a fixed catalog of five courses for each of
 * three academic years, the field handler that clears the course when the year
 * changes, the predefined-course picker, and the guarded create request.
 */
module AdminCourseFeedback {
  import opened Common

  /** A catalog entry: the course code (`value`) and its title (the `label` property). */
  datatype Course = Course(value: string, title: string)

  const Years: seq<string> := ["2022-2023", "2023-2024", "2024-2025"]

  /** `academicYearCourses[year]`; `None` for a year the catalog does not list. */
  function CoursesFor(year: string): (courses: Option<seq<Course>>)
    ensures courses.Some? <==> year in Years
    ensures courses.Some? ==> |courses.value| == 5
  {
    if year == "2022-2023" then
      Some([Course("CS101", "Introduction to Programming"), Course("MATH201", "Calculus I"),
            Course("PHY101", "Physics Fundamentals"), Course("ENG102", "Technical Writing"),
            Course("STAT101", "Basic Statistics")])
    else if year == "2023-2024" then
      Some([Course("CS201", "Data Structures"), Course("MATH301", "Linear Algebra"),
            Course("CS205", "Computer Networks"), Course("DBMS101", "Database Management"),
            Course("AI101", "Artificial Intelligence Basics")])
    else if year == "2024-2025" then
      Some([Course("ML201", "Machine Learning"), Course("CS301", "Software Engineering"),
            Course("CLOUD101", "Cloud Computing"), Course("SEC201", "Cybersecurity Fundamentals"),
            Course("DATA201", "Big Data Analytics")])
    else None
  }

  /** The five courses of a listed year have five different codes. */
  lemma DistinctCodes(year: string)
    requires year in Years
    ensures forall i, j :: 0 <= i < j < 5 ==> CoursesFor(year).value[i].value != CoursesFor(year).value[j].value
  {
    var cs := CoursesFor(year).value;
    if year == Years[0] {
      DistinctFirstYear(cs);
    } else if year == Years[1] {
      DistinctSecondYear(cs);
    } else {
      DistinctThirdYear(cs);
    }
  }

  /** Two codes differ when their lengths, first or last characters do. */
  predicate Apart(a: string, b: string)
  {
    |a| != |b| || (a != [] && b != [] && (a[0] != b[0] || a[|a| - 1] != b[|b| - 1]))
  }

  lemma DistinctFirstYear(cs: seq<Course>)
    requires cs == CoursesFor(Years[0]).value
    ensures forall i, j :: 0 <= i < j < 5 ==> cs[i].value != cs[j].value
  {
    forall i, j | 0 <= i < j < 5 ensures cs[i].value != cs[j].value {
      assert Apart(cs[i].value, cs[j].value);
    }
  }

  lemma DistinctSecondYear(cs: seq<Course>)
    requires cs == CoursesFor(Years[1]).value
    ensures forall i, j :: 0 <= i < j < 5 ==> cs[i].value != cs[j].value
  {
    forall i, j | 0 <= i < j < 5 ensures cs[i].value != cs[j].value {
      assert Apart(cs[i].value, cs[j].value);
    }
  }

  lemma DistinctThirdYear(cs: seq<Course>)
    requires cs == CoursesFor(Years[2]).value
    ensures forall i, j :: 0 <= i < j < 5 ==> cs[i].value != cs[j].value
  {
    forall i, j | 0 <= i < j < 5 ensures cs[i].value != cs[j].value {
      assert Apart(cs[i].value, cs[j].value);
    }
  }

  /** `courses.find(c => c.value === code)`: the first entry with that code. */
  function FindCourse(courses: seq<Course>, code: string): (r: Option<Course>)
    ensures r.None? <==> forall i :: 0 <= i < |courses| ==> courses[i].value != code
    ensures r.Some? ==> exists i :: (0 <= i < |courses| && courses[i] == r.value && r.value.value == code
                                     && forall j :: 0 <= j < i ==> courses[j].value != code)
  {
    if courses == [] then None
    else if courses[0].value == code then Some(courses[0])
    else
      var rest := FindCourse(courses[1..], code);
      assert forall i :: 1 <= i < |courses| ==> courses[i] == courses[1..][i - 1];
      rest
  }

  /** A catalog code finds its own course. */
  lemma FindListedCourse(year: string, i: nat)
    requires year in Years && i < 5
    ensures FindCourse(CoursesFor(year).value, CoursesFor(year).value[i].value)
      == Some(CoursesFor(year).value[i])
  {
    DistinctCodes(year);
    var cs := CoursesFor(year).value;
    var r := FindCourse(cs, cs[i].value);
    var k :| 0 <= k < |cs| && cs[k] == r.value && r.value.value == cs[i].value
      && forall j :: 0 <= j < k ==> cs[j].value != cs[i].value;
    assert k == i;
  }

  datatype CField = CourseName | CourseCode | Description | Department | Credits | Instructor
                  | AcademicYear | PredefinedCourse

  const AllFields: set<CField> :=
    {CourseName, CourseCode, Description, Department, Credits, Instructor, AcademicYear, PredefinedCourse}

  lemma AllFieldsListed()
    ensures forall f: CField :: f in AllFields
  {
    forall f: CField ensures f in AllFields {
      match f {
        case CourseName => case CourseCode => case Description => case Department =>
        case Credits => case Instructor => case AcademicYear => case PredefinedCourse =>
      }
    }
  }

  predicate Complete(values: map<CField, string>)
  {
    forall f: CField :: f in values
  }

  function BlankValues(): (values: map<CField, string>)
    ensures Complete(values) && forall f :: values[f] == ""
  {
    AllFieldsListed();
    map f | f in AllFields :: ""
  }

  /** The fields a change of academic year clears. */
  predicate ClearedByYear(f: CField)
  {
    f == PredefinedCourse || f == CourseName || f == CourseCode
  }

  const YearMissing := "Please select an Academic Year"
  const NameOrCodeMissing := "Please enter Course Name and Course Code"
  const Created := "Course Created Successfully!"
  const CreateFailed := "Failed to Create Course"
  const NetworkFailure := "Network Error. Please try again."

  /** The message of the first create guard that fails. */
  function CreateError(values: map<CField, string>): (e: Option<string>)
    requires Complete(values)
    ensures e == Some(YearMissing) <==> values[AcademicYear] == ""
    ensures e == Some(NameOrCodeMissing) <==>
      values[AcademicYear] != "" && values[PredefinedCourse] == ""
      && (values[CourseName] == "" || values[CourseCode] == "")
    ensures e.None? <==>
      values[AcademicYear] != "" && (values[PredefinedCourse] != "" || (values[CourseName] != "" && values[CourseCode] != ""))
  {
    if values[AcademicYear] == "" then Some(YearMissing)
    else if values[PredefinedCourse] == "" && (values[CourseName] == "" || values[CourseCode] == "") then
      Some(NameOrCodeMissing)
    else None
  }

  class CreateCourse {
    var values: map<CField, string>
    var isSubmitting: bool
    var status: Notice

    constructor ()
      ensures Complete(values) && values == BlankValues() && !isSubmitting && status == NoNotice
    {
      values := BlankValues();
      isSubmitting := false;
      status := NoNotice;
    }

    /** `handleInputChange`: the named field takes the value; a new academic year
        also clears the predefined course, the name and the code. */
    method HandleInputChange(name: CField, value: string)
      requires Complete(values)
      modifies this`values
      ensures Complete(values)
      ensures values[name] == value
      ensures name == AcademicYear ==> forall f :: ClearedByYear(f) ==> values[f] == ""
      ensures forall f :: f != name && !(name == AcademicYear && ClearedByYear(f)) ==> values[f] == old(values)[f]
    {
      values := values[name := value];
      if name == AcademicYear {
        values := values[PredefinedCourse := ""][CourseName := ""][CourseCode := ""];
      }
    }

    /** `handlePredefinedCourseChange`: with a selection and a year, the code and
        the selection become the chosen code and the name its catalog title, or
        "" when the year's list lacks it. With either empty nothing changes; a year
        outside the catalog makes the lookup throw, which changes nothing either. */
    method HandlePredefinedCourseChange(selected: string)
      requires Complete(values)
      modifies this`values
      ensures Complete(values)
      ensures selected == "" || old(values)[AcademicYear] == "" || CoursesFor(old(values)[AcademicYear]).None? ==>
        values == old(values)
      ensures selected != "" && CoursesFor(old(values)[AcademicYear]).Some? ==>
        var found := FindCourse(CoursesFor(old(values)[AcademicYear]).value, selected);
        values == old(values)[PredefinedCourse := selected]
                             [CourseName := if found.Some? then found.value.title else ""]
                             [CourseCode := selected]
    {
      var year := values[AcademicYear];
      if selected != "" && year != "" {
        var courses := CoursesFor(year);
        if courses.Some? {
          var found := FindCourse(courses.value, selected);
          values := values[PredefinedCourse := selected]
                          [CourseName := if found.Some? then found.value.title else ""]
                          [CourseCode := selected];
        }
      }
    }

    /** `handleCreateCourse`: the guards in order, then the request with
        `isSubmitting` set; success resets every field, a refusal shows the
        server's message or the default, a network failure its own message. */
    method HandleCreateCourse(outcome: Outcome<()>) returns (request: Option<map<CField, string>>, submittingDuringRequest: bool)
      requires Complete(values)
      modifies this`values, this`isSubmitting, this`status
      ensures Complete(values)
      ensures CreateError(old(values)).Some? ==>
        request == None && status == Notice(Error, CreateError(old(values)).value)
        && !isSubmitting && values == old(values)
      ensures CreateError(old(values)).None? ==>
        request == Some(old(values)) && submittingDuringRequest && !isSubmitting
      ensures CreateError(old(values)).None? && outcome.Ok? ==>
        status == Notice(Success, Created) && values == BlankValues()
      ensures CreateError(old(values)).None? && outcome.ServerError? ==>
        status == Notice(Error, OrElse(outcome.message, CreateFailed)) && values == old(values)
      ensures CreateError(old(values)).None? && outcome.NetworkError? ==>
        status == Notice(Error, NetworkFailure) && values == old(values)
    {
      if values[AcademicYear] == "" {
        isSubmitting, status := false, Notice(Error, YearMissing);
        return None, false;
      }
      if values[PredefinedCourse] == "" && (values[CourseName] == "" || values[CourseCode] == "") {
        isSubmitting, status := false, Notice(Error, NameOrCodeMissing);
        return None, false;
      }
      isSubmitting, status := true, NoNotice;
      request := Some(values);
      submittingDuringRequest := isSubmitting;
      match outcome {
        case Ok(_) =>
          isSubmitting, status := false, Notice(Success, Created);
          values := BlankValues();
        case ServerError(message) =>
          isSubmitting, status := false, Notice(Error, OrElse(message, CreateFailed));
        case NetworkError =>
          isSubmitting, status := false, Notice(Error, NetworkFailure);
      }
    }
  }
}
