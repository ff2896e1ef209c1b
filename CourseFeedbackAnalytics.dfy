/**
 * The admin's course feedback analytics: the fetched summary is shaped into one
 * bar entry per course and one pie slice per star rating.
 */
module CourseFeedbackAnalytics {
  import opened Common
  import AdminFacultyFeedback

  /** One course of the summary; the average is carried through unchanged. */
  datatype CourseStats = CourseStats(courseName: string, averageRating: real, totalFeedbacks: nat)

  /** One key of the summary's `ratingDistribution` object, in its entry order. */
  datatype RatingCount = RatingCount(rating: string, count: nat)

  /** The fetched summary; a missing (or null) list is `None`. */
  datatype Analytics = Analytics(courseFeedbacks: Option<seq<CourseStats>>, ratingDistribution: Option<seq<RatingCount>>)

  /** The initial `[]`, which has neither list. */
  const NoAnalytics := Analytics(None, None)

  datatype CourseEntry = CourseEntry(name: string, averageRating: real, totalFeedbacks: nat)
  datatype SliceEntry = SliceEntry(name: string, value: nat)

  /** `prepareCourseRatingData`: one entry per course, in order. */
  function CourseRatingData(a: Analytics): (entries: seq<CourseEntry>)
    ensures a.courseFeedbacks.None? ==> entries == []
    ensures a.courseFeedbacks.Some? ==>
      |entries| == |a.courseFeedbacks.value| && forall i :: 0 <= i < |entries| ==>
        var c := a.courseFeedbacks.value[i];
        entries[i] == CourseEntry(c.courseName, c.averageRating, c.totalFeedbacks)
  {
    match a.courseFeedbacks
    case None => []
    case Some(cs) => seq(|cs|, i requires 0 <= i < |cs| => CourseEntry(cs[i].courseName, cs[i].averageRating, cs[i].totalFeedbacks))
  }

  const StarSuffix := " Star"

  function StarName(rating: string): (name: string)
  {
    rating + StarSuffix
  }

  /** The rating a slice name was made from. */
  function RatingOfName(name: string): (rating: string)
    requires |name| >= |StarSuffix|
  {
    name[..|name| - |StarSuffix|]
  }

  lemma StarNameRoundTrip(rating: string)
    ensures RatingOfName(StarName(rating)) == rating
  {
    assert StarName(rating)[..|rating|] == rating;
  }

  /** Different ratings are given different names. */
  lemma StarNameInjective(r1: string, r2: string)
    requires StarName(r1) == StarName(r2)
    ensures r1 == r2
  {
    StarNameRoundTrip(r1);
    StarNameRoundTrip(r2);
  }

  /** `prepareRatingDistributionData`: one slice per key, named "<key> Star",
      with its count. */
  function RatingDistributionData(a: Analytics): (slices: seq<SliceEntry>)
    ensures a.ratingDistribution.None? ==> slices == []
    ensures a.ratingDistribution.Some? ==>
      |slices| == |a.ratingDistribution.value| && forall i :: 0 <= i < |slices| ==>
        var e := a.ratingDistribution.value[i];
        slices[i].name == e.rating + StarSuffix && slices[i].value == e.count
        && RatingOfName(slices[i].name) == e.rating
  {
    match a.ratingDistribution
    case None => []
    case Some(d) =>
      var slices := seq(|d|, i requires 0 <= i < |d| => SliceEntry(StarName(d[i].rating), d[i].count));
      assert forall i :: 0 <= i < |d| ==> RatingOfName(slices[i].name) == d[i].rating by {
        forall i | 0 <= i < |d| ensures RatingOfName(slices[i].name) == d[i].rating {
          StarNameRoundTrip(d[i].rating);
        }
      }
      slices
  }

  const FetchFailed := "Failed to fetch feedback data"

  datatype View = LoadingView | ErrorView(message: string) | AnalyticsView(courses: seq<CourseEntry>, slices: seq<SliceEntry>)

  class FeedbackAnalytics {
    var feedbackData: Analytics
    var loading: bool
    var error: Option<string>

    constructor ()
      ensures feedbackData == NoAnalytics && loading && error == None
    {
      feedbackData := NoAnalytics;
      loading := true;
      error := None;
    }

    /** The mount effect: any failure sets the fixed error text; loading ends on
        every path. */
    method FetchFeedbackData(outcome: Outcome<Analytics>)
      modifies this`feedbackData, this`loading, this`error
      ensures !loading
      ensures outcome.Ok? ==> feedbackData == outcome.data && error == old(error)
      ensures !outcome.Ok? ==> error == Some(FetchFailed) && feedbackData == old(feedbackData) && Render() == ErrorView(FetchFailed)
    {
      if outcome.Ok? {
        feedbackData := outcome.data;
      } else {
        error := Some(FetchFailed);
      }
      loading := false;
    }

    /** Loading first, then a non-empty error, then the two charts. */
    function Render(): (v: View)
      reads this
      ensures v == LoadingView <==> loading
      ensures v.ErrorView? <==> !loading && error.Some? && error.value != ""
      ensures v.AnalyticsView? ==>
        v.courses == CourseRatingData(feedbackData) && v.slices == RatingDistributionData(feedbackData)
    {
      if loading then LoadingView
      else if error.Some? && error.value != "" then ErrorView(error.value)
      else AnalyticsView(CourseRatingData(feedbackData), RatingDistributionData(feedbackData))
    }

    /** Slice `index` takes the same palette colour as on the faculty analytics page. */
    function SliceColor(index: nat): (c: string)
      ensures c == AdminFacultyFeedback.Colors[index % 5]
    {
      AdminFacultyFeedback.CellColor(index)
    }
  }
}
