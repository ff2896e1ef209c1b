/**
 * The admin overview of the general feedback: counts of responses, hostelers
 * and day scholars, a per-department tally, the five most recent responses
 * newest first, and per-rating tallies of the hostel and canteen questions,
 * shaped into pie and bar chart entries. A tally is the object the
 * `reduce((acc, item) => ...)` folds build, kept as a list of buckets in the
 * order keys are first met.
 */
module GeneralFeedbackAdmin {
  import opened Common

  /** One key of a tally and how many items carried it. */
  datatype Bucket = Bucket(key: string, count: nat)

  function KeysOf(t: seq<Bucket>): (ks: seq<string>)
    ensures |ks| == |t| && forall i :: 0 <= i < |t| ==> ks[i] == t[i].key
  {
    if t == [] then [] else [t[0].key] + KeysOf(t[1..])
  }

  /** `acc[key] || 0`: the count of a key, 0 when it has no bucket yet. */
  function Lookup(t: seq<Bucket>, key: string): nat
  {
    if t == [] then 0 else if t[0].key == key then t[0].count else Lookup(t[1..], key)
  }

  /** The sum of all counts. */
  function Total(t: seq<Bucket>): nat
  {
    if t == [] then 0 else t[0].count + Total(t[1..])
  }

  /** `acc[key] = (acc[key] || 0) + 1`: an existing bucket grows in place, a new
      key gets a bucket at the end. */
  function Increment(t: seq<Bucket>, key: string): seq<Bucket>
  {
    if t == [] then [Bucket(key, 1)]
    else if t[0].key == key then [t[0].(count := t[0].count + 1)] + t[1..]
    else [t[0]] + Increment(t[1..], key)
  }

  /** The tally of `keys`, folded from the first key to the last. */
  function Tally(keys: seq<string>): seq<Bucket>
  {
    if keys == [] then [] else Increment(Tally(keys[..|keys| - 1]), keys[|keys| - 1])
  }

  /** How often `key` occurs in `keys`. */
  function Occurrences(keys: seq<string>, key: string): nat
  {
    if keys == [] then 0 else Occurrences(keys[..|keys| - 1], key) + (if keys[|keys| - 1] == key then 1 else 0)
  }

  /** The keys of `keys` without repetitions, in the order they first occur: the
      reference for the order of a tally's buckets. */
  function FirstOccurrences(keys: seq<string>): seq<string>
  {
    if keys == [] then []
    else
      var d := FirstOccurrences(keys[..|keys| - 1]);
      if keys[|keys| - 1] in d then d else d + [keys[|keys| - 1]]
  }

  predicate NoDuplicates(ks: seq<string>)
  {
    forall i, j :: 0 <= i < j < |ks| ==> ks[i] != ks[j]
  }

  lemma {:induction false} IncrementKeys(t: seq<Bucket>, key: string)
    ensures KeysOf(Increment(t, key)) == if key in KeysOf(t) then KeysOf(t) else KeysOf(t) + [key]
  {
    if t != [] {
      IncrementKeys(t[1..], key);
      assert KeysOf(t) == [t[0].key] + KeysOf(t[1..]);
    }
  }

  lemma {:induction false} IncrementLookup(t: seq<Bucket>, key: string, k: string)
    ensures Lookup(Increment(t, key), k) == Lookup(t, k) + (if k == key then 1 else 0)
  {
    if t != [] && t[0].key != key {
      IncrementLookup(t[1..], key, k);
    }
  }

  lemma {:induction false} IncrementTotal(t: seq<Bucket>, key: string)
    ensures Total(Increment(t, key)) == Total(t) + 1
  {
    if t != [] && t[0].key != key {
      IncrementTotal(t[1..], key);
    }
  }

  lemma {:induction false} FirstOccurrencesMembers(keys: seq<string>)
    ensures NoDuplicates(FirstOccurrences(keys))
    ensures forall k :: k in FirstOccurrences(keys) <==> k in keys
  {
    if keys != [] {
      FirstOccurrencesMembers(keys[..|keys| - 1]);
      assert keys == keys[..|keys| - 1] + [keys[|keys| - 1]];
    }
  }

  /** A tally has one bucket per distinct key, in first-occurrence order, each
      counting exactly the occurrences of its key; the counts add up to the
      number of items. */
  lemma {:induction false} TallyCorrect(keys: seq<string>)
    ensures KeysOf(Tally(keys)) == FirstOccurrences(keys)
    ensures forall k :: Lookup(Tally(keys), k) == Occurrences(keys, k)
    ensures Total(Tally(keys)) == |keys|
  {
    if keys != [] {
      var prefix, last := keys[..|keys| - 1], keys[|keys| - 1];
      TallyCorrect(prefix);
      IncrementKeys(Tally(prefix), last);
      IncrementTotal(Tally(prefix), last);
      forall k ensures Lookup(Tally(keys), k) == Occurrences(keys, k) {
        IncrementLookup(Tally(prefix), last, k);
      }
    }
  }

  /** Every bucket of a tally is counted at least once and its keys are distinct. */
  lemma TallyBuckets(keys: seq<string>)
    ensures NoDuplicates(KeysOf(Tally(keys)))
    ensures forall i :: 0 <= i < |Tally(keys)| ==> Tally(keys)[i].key in keys
  {
    TallyCorrect(keys);
    FirstOccurrencesMembers(keys);
    var t := Tally(keys);
    forall i | 0 <= i < |t| ensures t[i].key in keys {
      assert KeysOf(t)[i] in FirstOccurrences(keys);
    }
  }

  lemma {:induction false} OccurrencesAppend(a: seq<string>, b: seq<string>, k: string)
    ensures Occurrences(a + b, k) == Occurrences(a, k) + Occurrences(b, k)
  {
    if b != [] {
      assert (a + b)[..|a + b| - 1] == a + b[..|b| - 1];
      OccurrencesAppend(a, b[..|b| - 1], k);
    } else {
      assert a + b == a;
    }
  }

  const NotRated := "Not Rated"

  /** `item.field || 'Not Rated'`. */
  function RatingKey(rating: string): (key: string)
    ensures key != ""
    ensures rating != "" ==> key == rating
    ensures rating == "" ==> key == NotRated
  {
    OrElse(rating, NotRated)
  }

  /** The tally keys of one rating question, one per record. */
  function RatingKeys(ratings: seq<string>): (keys: seq<string>)
    ensures |keys| == |ratings| && forall i :: 0 <= i < |ratings| ==> keys[i] == RatingKey(ratings[i])
  {
    seq(|ratings|, i requires 0 <= i < |ratings| => RatingKey(ratings[i]))
  }

  /** The tally of one rating question. */
  function RatingTally(ratings: seq<string>): (t: seq<Bucket>)
    ensures Total(t) == |ratings|
  {
    TallyCorrect(RatingKeys(ratings));
    Tally(RatingKeys(ratings))
  }

  /** An unanswered question is counted under 'Not Rated', never under "". */
  lemma UnansweredCountedAsNotRated(ratings: seq<string>)
    ensures Lookup(RatingTally(ratings), "") == 0
    ensures Lookup(RatingTally(ratings), NotRated) >= Occurrences(ratings, "")
  {
    var keys := RatingKeys(ratings);
    TallyCorrect(keys);
    OccurrencesOfAbsent(keys, "");
    EmptyBecomesNotRated(ratings);
  }

  lemma {:induction false} EmptyBecomesNotRated(ratings: seq<string>)
    ensures Occurrences(RatingKeys(ratings), NotRated) >= Occurrences(ratings, "")
  {
    if ratings != [] {
      var prefix := ratings[..|ratings| - 1];
      EmptyBecomesNotRated(prefix);
      assert RatingKeys(ratings)[..|ratings| - 1] == RatingKeys(prefix);
    }
  }

  /** Tallying the concatenation of two lists counts each key as often as the
      two lists' tallies together. */
  lemma RatingTallyAppend(a: seq<string>, b: seq<string>, k: string)
    ensures Lookup(RatingTally(a + b), k) == Lookup(RatingTally(a), k) + Lookup(RatingTally(b), k)
  {
    var ka, kb := RatingKeys(a), RatingKeys(b);
    assert RatingKeys(a + b) == ka + kb;
    TallyLookup(ka + kb, k);
    TallyLookup(ka, k);
    TallyLookup(kb, k);
    OccurrencesAppend(ka, kb, k);
  }

  lemma TallyLookup(keys: seq<string>, k: string)
    ensures Lookup(Tally(keys), k) == Occurrences(keys, k)
  {
    TallyCorrect(keys);
  }

  lemma {:induction false} OccurrencesOfAbsent(keys: seq<string>, k: string)
    requires k !in keys
    ensures Occurrences(keys, k) == 0
  {
    if keys != [] {
      OccurrencesOfAbsent(keys[..|keys| - 1], k);
    }
  }

  /** The fields of a general feedback record the overview reads. */
  datatype FeedbackRecord = FeedbackRecord(hosteler: bool, department: string, foodQuality: string, canteenPricing: string)

  /** The hostel questions of a record from either hostel endpoint. */
  datatype HostelRatings = HostelRatings(roomCondition: string, hostelFood: string, hostelCleanliness: string, hostelStaff: string)

  function HostelerCount(data: seq<FeedbackRecord>): nat
  {
    if data == [] then 0 else HostelerCount(data[..|data| - 1]) + (if data[|data| - 1].hosteler then 1 else 0)
  }

  function DayScholarCount(data: seq<FeedbackRecord>): nat
  {
    if data == [] then 0 else DayScholarCount(data[..|data| - 1]) + (if data[|data| - 1].hosteler then 0 else 1)
  }

  /** Every response is a hosteler's or a day scholar's, never both. */
  lemma {:induction false} HostelersAndDayScholars(data: seq<FeedbackRecord>)
    ensures HostelerCount(data) + DayScholarCount(data) == |data|
  {
    if data != [] {
      HostelersAndDayScholars(data[..|data| - 1]);
    }
  }

  /** `data.slice(-5).reverse()`. */
  function Recent<T>(data: seq<T>): (r: seq<T>)
    ensures |r| == if |data| < 5 then |data| else 5
    ensures forall i :: 0 <= i < |r| ==> r[i] == data[|data| - 1 - i]
  {
    var start := if |data| < 5 then 0 else |data| - 5;
    seq(|data| - start, i requires 0 <= i < |data| - start => data[|data| - 1 - i])
  }

  function Departments(data: seq<FeedbackRecord>): (ds: seq<string>)
    ensures |ds| == |data| && forall i :: 0 <= i < |data| ==> ds[i] == data[i].department
  {
    seq(|data|, i requires 0 <= i < |data| => data[i].department)
  }

  datatype DashboardData = DashboardData(totalResponses: nat, hostelerCount: nat, dayScholarCount: nat,
                                         departmentStats: seq<Bucket>, recentFeedback: seq<FeedbackRecord>)

  /** `processedData` of `fetchDashboardData`. */
  function Dashboard(data: seq<FeedbackRecord>): (d: DashboardData)
    ensures d.totalResponses == |data|
    ensures d.hostelerCount + d.dayScholarCount == d.totalResponses
    ensures Total(d.departmentStats) == d.totalResponses
    ensures forall k :: Lookup(d.departmentStats, k) == Occurrences(Departments(data), k)
    ensures d.recentFeedback == Recent(data)
  {
    HostelersAndDayScholars(data);
    TallyCorrect(Departments(data));
    DashboardData(|data|, HostelerCount(data), DayScholarCount(data), Tally(Departments(data)), Recent(data))
  }

  datatype HostelData = HostelData(roomCondition: seq<Bucket>, hostelFood: seq<Bucket>,
                                   hostelCleanliness: seq<Bucket>, hostelStaff: seq<Bucket>)

  function RoomConditions(rs: seq<HostelRatings>): seq<string>
  {
    seq(|rs|, i requires 0 <= i < |rs| => rs[i].roomCondition)
  }

  function HostelFoods(rs: seq<HostelRatings>): seq<string>
  {
    seq(|rs|, i requires 0 <= i < |rs| => rs[i].hostelFood)
  }

  function HostelCleanliness(rs: seq<HostelRatings>): seq<string>
  {
    seq(|rs|, i requires 0 <= i < |rs| => rs[i].hostelCleanliness)
  }

  function HostelStaff(rs: seq<HostelRatings>): seq<string>
  {
    seq(|rs|, i requires 0 <= i < |rs| => rs[i].hostelStaff)
  }

  /** `processedHostelData`: the two lists are concatenated without removing
      duplicates, so each question counts every record of both. */
  function Hostel(general: seq<HostelRatings>, specific: seq<HostelRatings>): (h: HostelData)
    ensures Total(h.roomCondition) == |general| + |specific|
    ensures Total(h.hostelFood) == |general| + |specific|
    ensures Total(h.hostelCleanliness) == |general| + |specific|
    ensures Total(h.hostelStaff) == |general| + |specific|
  {
    var all := general + specific;
    HostelData(RatingTally(RoomConditions(all)), RatingTally(HostelFoods(all)),
               RatingTally(HostelCleanliness(all)), RatingTally(HostelStaff(all)))
  }

  /** A record present in both lists is counted twice: every count of the
      combined tally is the sum of the two lists' counts. */
  lemma HostelCountsAdd(general: seq<HostelRatings>, specific: seq<HostelRatings>, k: string)
    ensures Lookup(Hostel(general, specific).roomCondition, k)
      == Lookup(RatingTally(RoomConditions(general)), k) + Lookup(RatingTally(RoomConditions(specific)), k)
  {
    assert RoomConditions(general + specific) == RoomConditions(general) + RoomConditions(specific);
    RatingTallyAppend(RoomConditions(general), RoomConditions(specific), k);
  }

  datatype CanteenData = CanteenData(foodQuality: seq<Bucket>, canteenPricing: seq<Bucket>)

  function FoodQualities(data: seq<FeedbackRecord>): seq<string>
  {
    seq(|data|, i requires 0 <= i < |data| => data[i].foodQuality)
  }

  function CanteenPrices(data: seq<FeedbackRecord>): seq<string>
  {
    seq(|data|, i requires 0 <= i < |data| => data[i].canteenPricing)
  }

  /** `processedCanteenData`: both questions count every response. */
  function Canteen(data: seq<FeedbackRecord>): (c: CanteenData)
    ensures Total(c.foodQuality) == |data| && Total(c.canteenPricing) == |data|
  {
    CanteenData(RatingTally(FoodQualities(data)), RatingTally(CanteenPrices(data)))
  }

  datatype PieEntry = PieEntry(name: string, value: nat)
  datatype BarEntry = BarEntry(rating: string, count: nat)

  /** `formatDataForPieChart`: one entry per bucket, same order, same count. */
  function PieChartData(t: seq<Bucket>): (entries: seq<PieEntry>)
    ensures |entries| == |t|
    ensures forall i :: 0 <= i < |t| ==> entries[i].name == t[i].key && entries[i].value == t[i].count
  {
    seq(|t|, i requires 0 <= i < |t| => PieEntry(t[i].key, t[i].count))
  }

  /** `formatDataForBarChart`: one entry per bucket, same order, same count. */
  function BarChartData(t: seq<Bucket>): (entries: seq<BarEntry>)
    ensures |entries| == |t|
    ensures forall i :: 0 <= i < |t| ==> entries[i].rating == t[i].key && entries[i].count == t[i].count
  {
    seq(|t|, i requires 0 <= i < |t| => BarEntry(t[i].key, t[i].count))
  }

  /** The department pie shows every department once, with slices adding up to
      the number of responses. */
  lemma DepartmentPie(data: seq<FeedbackRecord>)
    ensures |PieChartData(Dashboard(data).departmentStats)| == |FirstOccurrences(Departments(data))|
    ensures PieTotal(PieChartData(Dashboard(data).departmentStats)) == |data|
  {
    var t := Dashboard(data).departmentStats;
    TallyCorrect(Departments(data));
    PieTotalIsTotal(t);
  }

  function PieTotal(entries: seq<PieEntry>): nat
  {
    if entries == [] then 0 else entries[0].value + PieTotal(entries[1..])
  }

  lemma {:induction false} PieTotalIsTotal(t: seq<Bucket>)
    ensures PieTotal(PieChartData(t)) == Total(t)
  {
    if t != [] {
      PieTotalIsTotal(t[1..]);
      assert PieChartData(t)[1..] == PieChartData(t[1..]);
    }
  }

  /** The pie palette; a slice takes the colour at its index modulo 5. */
  const Colors: seq<string> := ["#0088FE", "#00C49F", "#FFBB28", "#FF8042", "#8884d8"]

  function CellColor(index: nat): (c: string)
    ensures c == Colors[index % 5]
    ensures index < 5 ==> c == Colors[index]
  {
    Colors[index % |Colors|]
  }

  /** The colours repeat every five slices. */
  lemma CellColorRepeats(index: nat)
    ensures CellColor(index + 5) == CellColor(index)
  {
  }

  /** The component's state: the three processed results and the loading flag,
      which only the canteen fetch clears. */
  class Overview {
    var dashboardData: Option<DashboardData>
    var hostelData: Option<HostelData>
    var canteenData: Option<CanteenData>
    var loading: bool

    constructor ()
      ensures dashboardData == None && hostelData == None && canteenData == None && loading
    {
      dashboardData, hostelData, canteenData := None, None, None;
      loading := true;
    }

    /** `fetchDashboardData`; a failed request or unreadable body is only logged. */
    method FetchDashboardData(outcome: Outcome<seq<FeedbackRecord>>)
      modifies this`dashboardData
      ensures outcome.Ok? ==> dashboardData == Some(Dashboard(outcome.data))
      ensures !outcome.Ok? ==> dashboardData == old(dashboardData)
    {
      if outcome.Ok? {
        dashboardData := Some(Dashboard(outcome.data));
      }
    }

    /** `fetchHostelData`: both lists are needed; either failing is only logged. */
    method FetchHostelData(general: Outcome<seq<HostelRatings>>, specific: Outcome<seq<HostelRatings>>)
      modifies this`hostelData
      ensures general.Ok? && specific.Ok? ==> hostelData == Some(Hostel(general.data, specific.data))
      ensures !(general.Ok? && specific.Ok?) ==> hostelData == old(hostelData)
    {
      if general.Ok? && specific.Ok? {
        hostelData := Some(Hostel(general.data, specific.data));
      }
    }

    /** `fetchCanteenData`: loading ends on both paths. */
    method FetchCanteenData(outcome: Outcome<seq<FeedbackRecord>>)
      modifies this`canteenData, this`loading
      ensures !loading
      ensures outcome.Ok? ==> canteenData == Some(Canteen(outcome.data))
      ensures !outcome.Ok? ==> canteenData == old(canteenData)
    {
      if outcome.Ok? {
        canteenData := Some(Canteen(outcome.data));
      }
      loading := false;
    }
  }
}
