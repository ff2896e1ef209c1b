/**
 * The admin's faculty analytics: the fetched per-instructor summaries, the
 * instructor chosen by name, a five-slice pie of the rating counts and a
 * five-bar breakdown of the category ratings of that instructor.
 */
module AdminFacultyFeedback {
  import opened Common

  /** One instructor's summary; averages are carried through unchanged (their
      display rounding is not modelled). */
  datatype FacultyAnalytics = FacultyAnalytics(
    instructorName: string, overallRating: real, totalFeedbackResponses: nat,
    excellentRatingsCount: nat, goodRatingsCount: nat, averageRatingsCount: nat,
    fairRatingsCount: nat, poorRatingsCount: nat,
    materialExplanationRating: real, objectivesClarityRating: real, contentRelevanceRating: real,
    assignmentClarityRating: real, gradingCriteriaRating: real)

  datatype PieEntry = PieEntry(name: string, value: nat)
  datatype BarEntry = BarEntry(category: string, rating: real)

  const PieNames: seq<string> := ["Excellent", "Good", "Average", "Fair", "Poor"]
  const Categories: seq<string> := ["Material Explanation", "Objectives Clarity", "Content Relevance",
                                    "Assignment Clarity", "Grading Criteria"]

  /** The five rating counts in the order of `PieNames`. */
  function RatingCounts(f: FacultyAnalytics): (counts: seq<nat>)
    ensures |counts| == 5
  {
    [f.excellentRatingsCount, f.goodRatingsCount, f.averageRatingsCount, f.fairRatingsCount, f.poorRatingsCount]
  }

  /** The five category ratings in the order of `Categories`. */
  function CategoryRatings(f: FacultyAnalytics): (ratings: seq<real>)
    ensures |ratings| == 5
  {
    [f.materialExplanationRating, f.objectivesClarityRating, f.contentRelevanceRating,
     f.assignmentClarityRating, f.gradingCriteriaRating]
  }

  /** `transformDataForOverallRatingPieChart`: nothing without a selection,
      otherwise one slice per rating level, in fixed order. */
  function PieData(selected: Option<FacultyAnalytics>): (entries: seq<PieEntry>)
    ensures selected.None? <==> entries == []
    ensures selected.Some? ==>
      |entries| == 5 && forall i :: 0 <= i < 5 ==>
        entries[i].name == PieNames[i] && entries[i].value == RatingCounts(selected.value)[i]
  {
    match selected
    case None => []
    case Some(f) =>
      var counts := RatingCounts(f);
      var entries := seq(5, i requires 0 <= i < 5 => PieEntry(PieNames[i], counts[i]));
      assert forall i :: 0 <= i < 5 ==> entries[i].name == PieNames[i] && entries[i].value == counts[i];
      entries
  }

  /** The counts can be read back from the slices: a pie determines the
      summary's five counts. */
  lemma PieDataKeepsCounts(f: FacultyAnalytics, g: FacultyAnalytics)
    requires PieData(Some(f)) == PieData(Some(g))
    ensures f.excellentRatingsCount == g.excellentRatingsCount && f.goodRatingsCount == g.goodRatingsCount
    ensures f.averageRatingsCount == g.averageRatingsCount && f.fairRatingsCount == g.fairRatingsCount
    ensures f.poorRatingsCount == g.poorRatingsCount
  {
    var pf, pg := PieData(Some(f)), PieData(Some(g));
    assert pf[0].value == pg[0].value && pf[1].value == pg[1].value && pf[2].value == pg[2].value;
    assert pf[3].value == pg[3].value && pf[4].value == pg[4].value;
  }

  /** The bar data of `renderRatingBreakdownBarChart`: absent without a
      selection, otherwise five categories in fixed order. */
  function BarData(selected: Option<FacultyAnalytics>): (bars: Option<seq<BarEntry>>)
    ensures bars.None? <==> selected.None?
    ensures selected.Some? ==>
      |bars.value| == 5 && forall i :: 0 <= i < 5 ==>
        bars.value[i].category == Categories[i] && bars.value[i].rating == CategoryRatings(selected.value)[i]
  {
    match selected
    case None => None
    case Some(f) =>
      var ratings := CategoryRatings(f);
      var bars := seq(5, i requires 0 <= i < 5 => BarEntry(Categories[i], ratings[i]));
      assert forall i :: 0 <= i < 5 ==> bars[i].category == Categories[i] && bars[i].rating == ratings[i];
      Some(bars)
  }

  /** `facultyData.find(f => f.instructorName === name)`. */
  function FindFaculty(data: seq<FacultyAnalytics>, name: string): (r: Option<FacultyAnalytics>)
    ensures r.None? <==> forall i :: 0 <= i < |data| ==> data[i].instructorName != name
    ensures r.Some? ==>
      exists i :: (0 <= i < |data| && data[i] == r.value && forall j :: 0 <= j < i ==> data[j].instructorName != name)
    ensures r.Some? ==> r.value.instructorName == name
  {
    if data == [] then None
    else if data[0].instructorName == name then
      assert data[0] == data[0];
      Some(data[0])
    else
      var r := FindFaculty(data[1..], name);
      if r.Some? then
        var i :| 0 <= i < |data[1..]| && data[1..][i] == r.value
          && (forall j :: 0 <= j < i ==> data[1..][j].instructorName != name);
        assert data[i + 1] == r.value;
        r
      else r
  }

  /** Choosing a listed name selects the first summary carrying it. */
  lemma FindListedFaculty(data: seq<FacultyAnalytics>, i: nat)
    requires i < |data| && forall j :: 0 <= j < i ==> data[j].instructorName != data[i].instructorName
    ensures FindFaculty(data, data[i].instructorName) == Some(data[i])
  {
    var r := FindFaculty(data, data[i].instructorName);
    var k :| 0 <= k < |data| && data[k] == r.value
      && (forall j :: 0 <= j < k ==> data[j].instructorName != data[i].instructorName);
  }

  /** The palette of the analytics pies; a slice takes the colour at its index
      modulo 5. */
  const Colors: seq<string> := ["#0088FE", "#00C49F", "#FFBB28", "#FF8042", "#8884D8"]

  function CellColor(index: nat): (c: string)
    ensures c == Colors[index % 5]
    ensures index < 5 ==> c == Colors[index]
  {
    Colors[index % |Colors|]
  }

  lemma CellColorRepeats(index: nat)
    ensures CellColor(index + 5) == CellColor(index)
  {
  }

  const FetchFailed := "Failed to fetch faculty analytics"

  datatype View = LoadingView | ErrorView(message: string) | AnalyticsView(data: seq<FacultyAnalytics>)

  class FacultyFeedbackAnalytics {
    var facultyData: seq<FacultyAnalytics>
    var selectedFaculty: Option<FacultyAnalytics>
    var loading: bool
    var error: Option<string>

    constructor ()
      ensures facultyData == [] && selectedFaculty == None && loading && error == None
    {
      facultyData := [];
      selectedFaculty := None;
      loading := true;
      error := None;
    }

    /** The mount effect: a non-ok status is turned into the fixed error text,
        a request that fails without response reports the failure's own text
        `networkText`. Loading ends on every path. */
    method FetchFacultyAnalytics(outcome: Outcome<seq<FacultyAnalytics>>, networkText: string)
      modifies this`facultyData, this`loading, this`error
      ensures !loading
      ensures outcome.Ok? ==> facultyData == outcome.data && error == old(error)
      ensures outcome.ServerError? ==> error == Some(FetchFailed) && facultyData == old(facultyData)
      ensures outcome.NetworkError? ==> error == Some(networkText) && facultyData == old(facultyData)
    {
      match outcome {
        case Ok(data) => facultyData := data;
        case ServerError(_) => error := Some(FetchFailed);
        case NetworkError => error := Some(networkText);
      }
      loading := false;
    }

    /** The select: the first summary with the chosen name, or none. */
    method SelectFaculty(name: string)
      modifies this`selectedFaculty
      ensures selectedFaculty == FindFaculty(facultyData, name)
    {
      selectedFaculty := FindFaculty(facultyData, name);
    }

    /** Loading first, then a non-empty error, then the analytics. */
    function Render(): (v: View)
      reads this
      ensures v == LoadingView <==> loading
      ensures v.ErrorView? <==> !loading && error.Some? && error.value != ""
      ensures v.AnalyticsView? ==> v.data == facultyData
    {
      if loading then LoadingView
      else if error.Some? && error.value != "" then ErrorView(error.value)
      else AnalyticsView(facultyData)
    }
  }
}
