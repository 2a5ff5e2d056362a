/**
  The department leaderboard (src/components/Leaderboard.tsx).

  The component shows a hard-coded table of departments. What it computes is
  small: a rank-movement indicator, a colour band and a badge band for a
  score, the top three rows as a podium, a trend arrow chosen by the trend
  string's sign, and a rounded resolution rate. Changing the time filter
  re-runs an effect that loads the same table again.
*/
module Scoreboard {
  import opened Wrappers

  datatype Department = Department(
    id: string,
    name: string,
    shortName: string,
    trueScore: real,
    trend: string,
    totalIssues: nat,
    resolvedIssues: nat,
    avgResponseTime: string,
    avgResolutionTime: string,
    publicSatisfaction: nat,
    rank: nat,
    previousRank: nat,
    category: string,
    color: string)

  /** The `mockDepartments` table, in list order. */
  const MockDepartments: seq<Department> := [
    Department("dept-1", "Water Board", "Water", 89.2, "+5.3", 234, 209, "3.2 hrs", "2.1 days", 91, 1, 2, "Utilities", "blue"),
    Department("dept-2", "BBMP Waste Management", "Waste", 85.7, "+2.1", 456, 391, "4.5 hrs", "1.8 days", 88, 2, 1, "Sanitation", "green"),
    Department("dept-3", "BESCOM Power", "Power", 82.4, "+1.8", 189, 156, "2.8 hrs", "6.2 hrs", 85, 3, 3, "Utilities", "yellow"),
    Department("dept-4", "BBMP Roads", "Roads", 76.3, "-1.2", 567, 432, "6.7 hrs", "4.5 days", 79, 4, 4, "Infrastructure", "orange"),
    Department("dept-5", "Traffic Police", "Traffic", 71.8, "+3.4", 298, 214, "8.1 hrs", "3.2 days", 74, 5, 6, "Safety", "red"),
    Department("dept-6", "Parks & Gardens", "Parks", 68.9, "-0.8", 123, 85, "5.4 hrs", "7.1 days", 72, 6, 5, "Recreation", "emerald")
  ]

  // ---------------------------------------------------------------------
  // Rank movement
  // ---------------------------------------------------------------------

  datatype RankChange = Up | Down | Same

  /** `getRankChange(current, previous)`: a smaller rank number is a better place. */
  function GetRankChange(current: int, previous: int): (r: RankChange)
    ensures r == Up <==> current < previous
    ensures r == Down <==> current > previous
    ensures r == Same <==> current == previous
  {
    if current < previous then Up
    else if current > previous then Down
    else Same
  }

  /** Swapping the two ranks swaps up and down and keeps same. */
  lemma RankChangeSwap(a: int, b: int)
    ensures GetRankChange(a, b) == Up <==> GetRankChange(b, a) == Down
    ensures GetRankChange(a, b) == Down <==> GetRankChange(b, a) == Up
    ensures GetRankChange(a, b) == Same <==> GetRankChange(b, a) == Same
  {
  }

  // ---------------------------------------------------------------------
  // Score bands
  // ---------------------------------------------------------------------

  /** The lower edges of the yellow, blue and green bands, in increasing order. */
  const BandFloors: seq<real> := [65.0, 75.0, 85.0]

  /** How many of `floors` the score reaches: 0 is red, 1 yellow, 2 blue, 3 green. */
  function FloorsReached(score: real, floors: seq<real>): (n: nat)
    ensures n <= |floors|
  {
    if floors == [] then 0
    else (if floors[0] <= score then 1 else 0) + FloorsReached(score, floors[1..])
  }

  /** A higher score reaches at least as many floors. */
  lemma {:induction false} FloorsReachedMonotone(s: real, t: real, floors: seq<real>)
    requires s <= t
    ensures FloorsReached(s, floors) <= FloorsReached(t, floors)
  {
    if floors != [] {
      FloorsReachedMonotone(s, t, floors[1..]);
    }
  }

  /** The band of a score, counted from red (0) to green (3). */
  function ScoreBand(score: real): (b: nat)
    ensures b <= 3
  {
    FloorsReached(score, BandFloors)
  }

  /** The band a score lands in, by the interval it lies in. */
  lemma ScoreBandIntervals(score: real)
    ensures ScoreBand(score) == 3 <==> 85.0 <= score
    ensures ScoreBand(score) == 2 <==> 75.0 <= score < 85.0
    ensures ScoreBand(score) == 1 <==> 65.0 <= score < 75.0
    ensures ScoreBand(score) == 0 <==> score < 65.0
  {
    var f := BandFloors;
    assert f[1..][1..][1..] == [];
    assert FloorsReached(score, f[1..][1..]) == if 85.0 <= score then 1 else 0;
    assert FloorsReached(score, f[1..]) == (if 75.0 <= score then 1 else 0) + (if 85.0 <= score then 1 else 0);
  }

  /** Banding is monotone: a higher score never lands in a lower band. */
  lemma ScoreBandMonotone(s: real, t: real)
    requires s <= t
    ensures ScoreBand(s) <= ScoreBand(t)
  {
    FloorsReachedMonotone(s, t, BandFloors);
  }

  /** The text colour class of each band. */
  function BandColor(b: nat): string {
    if b >= 3 then "text-green-600"
    else if b == 2 then "text-blue-600"
    else if b == 1 then "text-yellow-600"
    else "text-red-600"
  }

  /** The badge classes of each band. */
  function BandBadge(b: nat): string {
    if b >= 3 then "bg-green-50 text-green-700 border-green-200"
    else if b == 2 then "bg-blue-50 text-blue-700 border-blue-200"
    else if b == 1 then "bg-yellow-50 text-yellow-700 border-yellow-200"
    else "bg-red-50 text-red-700 border-red-200"
  }

  /** `getTrueScoreColor(score)`. */
  function GetTrueScoreColor(score: real): (c: string)
    ensures c == "text-green-600" <==> 85.0 <= score
    ensures c == "text-blue-600" <==> 75.0 <= score < 85.0
    ensures c == "text-yellow-600" <==> 65.0 <= score < 75.0
    ensures c == "text-red-600" <==> score < 65.0
  {
    if score >= 85.0 then "text-green-600"
    else if score >= 75.0 then "text-blue-600"
    else if score >= 65.0 then "text-yellow-600"
    else "text-red-600"
  }

  /** `getTrueScoreBadge(score)`. */
  function GetTrueScoreBadge(score: real): (c: string)
    ensures c == "bg-green-50 text-green-700 border-green-200" <==> 85.0 <= score
    ensures c == "bg-blue-50 text-blue-700 border-blue-200" <==> 75.0 <= score < 85.0
    ensures c == "bg-yellow-50 text-yellow-700 border-yellow-200" <==> 65.0 <= score < 75.0
    ensures c == "bg-red-50 text-red-700 border-red-200" <==> score < 65.0
  {
    if score >= 85.0 then "bg-green-50 text-green-700 border-green-200"
    else if score >= 75.0 then "bg-blue-50 text-blue-700 border-blue-200"
    else if score >= 65.0 then "bg-yellow-50 text-yellow-700 border-yellow-200"
    else "bg-red-50 text-red-700 border-red-200"
  }

  /** Colour and badge are both picked by the band, so they always agree. */
  lemma ColorAndBadgeShareBand(score: real)
    ensures GetTrueScoreColor(score) == BandColor(ScoreBand(score))
    ensures GetTrueScoreBadge(score) == BandBadge(ScoreBand(score))
  {
    ScoreBandIntervals(score);
  }

  /** A higher score never gets the colour of a lower band. */
  lemma ColorMonotone(s: real, t: real, b: nat)
    requires s <= t && b <= 3
    requires GetTrueScoreColor(s) == BandColor(b)
    ensures b <= ScoreBand(t)
  {
    ColorAndBadgeShareBand(s);
    ScoreBandMonotone(s, t);
  }

  // ---------------------------------------------------------------------
  // Trend arrow, podium, resolution rate
  // ---------------------------------------------------------------------

  datatype Arrow = Rising | Falling

  /** `trend.startsWith('+') ? '↗' : '↘'`. */
  function TrendArrow(trend: string): (a: Arrow)
    ensures a == Rising <==> |trend| > 0 && trend[0] == '+'
  {
    if "+" <= trend then Rising else Falling
  }

  /** The trend text colour, picked by the same test as the arrow. */
  function TrendColor(trend: string): (c: string)
    ensures c == "text-green-600" <==> TrendArrow(trend) == Rising
    ensures c == "text-red-600" <==> TrendArrow(trend) == Falling
  {
    if "+" <= trend then "text-green-600" else "text-red-600"
  }

  datatype PodiumEntry = PodiumEntry(position: nat, dept: Department)

  /** `departments.slice(0, 3)`, each shown with its position `index + 1`. */
  function Podium(ds: seq<Department>): (p: seq<PodiumEntry>)
    ensures |p| == if |ds| < 3 then |ds| else 3
    ensures forall i :: 0 <= i < |p| ==> p[i] == PodiumEntry(i + 1, ds[i])
  {
    var n := if |ds| < 3 then |ds| else 3;
    seq(n, i requires 0 <= i < n => PodiumEntry(i + 1, ds[i]))
  }

  /**
    `Math.round((resolved / total) * 100)`, on exact rationals. `None` stands
    for what a zero total gives: NaN when nothing is resolved either, and
    Infinity otherwise.
  */
  function ResolutionRate(resolved: nat, total: nat): (r: Option<nat>)
    ensures r.None? <==> total == 0
    ensures r.Some? ==> 2 * total * r.value <= 200 * resolved + total < 2 * total * (r.value + 1)
  {
    if total == 0 then None else Some((200 * resolved + total) / (2 * total))
  }

  /** When no more issues are resolved than reported, the rate is at most 100. */
  lemma ResolutionRateAtMost100(resolved: nat, total: nat)
    requires 0 < total && resolved <= total
    ensures ResolutionRate(resolved, total).Some?
    ensures ResolutionRate(resolved, total).value <= 100
  {
    var q: int := ResolutionRate(resolved, total).value;
    var t: int := total;
    assert 2 * t * q <= 200 * resolved + t;
    assert t * (2 * q - 201) == 2 * t * q - 201 * t;
    ProductSign(total, 2 * q - 201);
  }

  /** A positive count times a positive number is positive. */
  lemma {:induction false} ProductSign(t: nat, x: int)
    requires t > 0
    ensures x > 0 ==> t * x > 0
  {
    if t > 1 {
      ProductSign(t - 1, x);
      assert t * x == (t - 1) * x + x;
    }
  }

  // ---------------------------------------------------------------------
  // The table's shape
  // ---------------------------------------------------------------------

  predicate RanksArePositions(ds: seq<Department>) {
    forall i :: 0 <= i < |ds| ==> ds[i].rank == i + 1
  }

  predicate ScoresDecrease(ds: seq<Department>) {
    forall i, j :: 0 <= i < j < |ds| ==> ds[j].trueScore < ds[i].trueScore
  }

  predicate IssueCountsConsistent(ds: seq<Department>) {
    forall i :: 0 <= i < |ds| ==> 0 < ds[i].totalIssues && ds[i].resolvedIssues <= ds[i].totalIssues
  }

  /** The mock table: rank is list position + 1, scores fall with rank, counts are consistent. */
  lemma MockTableWellFormed()
    ensures RanksArePositions(MockDepartments)
    ensures ScoresDecrease(MockDepartments)
    ensures IssueCountsConsistent(MockDepartments)
  {
    MockScoresDecrease();
  }

  lemma MockScoresDecrease()
    ensures ScoresDecrease(MockDepartments)
  {
    var m := MockDepartments;
    var scores := [89.2, 85.7, 82.4, 76.3, 71.8, 68.9];
    forall i | 0 <= i < 6 ensures m[i].trueScore == scores[i] {
    }
    forall i, j | 0 <= i < j < 6 ensures scores[j] < scores[i] {
    }
  }

  /** In a table whose ranks are positions, the podium shows each department's own rank. */
  lemma PodiumShowsRanks(ds: seq<Department>)
    requires RanksArePositions(ds)
    ensures forall e :: e in Podium(ds) ==> e.position == e.dept.rank
  {
  }

  /** In a table sorted by falling score, the band never rises down the list. */
  lemma BandsFallDownTheTable(ds: seq<Department>)
    requires ScoresDecrease(ds)
    ensures forall i, j :: 0 <= i < j < |ds| ==> ScoreBand(ds[j].trueScore) <= ScoreBand(ds[i].trueScore)
  {
    forall i, j | 0 <= i < j < |ds|
      ensures ScoreBand(ds[j].trueScore) <= ScoreBand(ds[i].trueScore)
    {
      ScoreBandMonotone(ds[j].trueScore, ds[i].trueScore);
    }
  }

  /** Every rate shown for a consistent table is defined and at most 100%. */
  lemma RatesDefinedAndBounded(ds: seq<Department>)
    requires IssueCountsConsistent(ds)
    ensures forall i :: 0 <= i < |ds| ==>
      ResolutionRate(ds[i].resolvedIssues, ds[i].totalIssues).Some?
      && ResolutionRate(ds[i].resolvedIssues, ds[i].totalIssues).value <= 100
  {
    forall i | 0 <= i < |ds|
      ensures ResolutionRate(ds[i].resolvedIssues, ds[i].totalIssues).Some?
      ensures ResolutionRate(ds[i].resolvedIssues, ds[i].totalIssues).value <= 100
    {
      ResolutionRateAtMost100(ds[i].resolvedIssues, ds[i].totalIssues);
    }
  }

  // ---------------------------------------------------------------------
  // The component
  // ---------------------------------------------------------------------

  class Leaderboard {
    var timeFilter: string
    var departments: seq<Department>

    /** The first render: filter "month", no departments loaded yet. */
    constructor ()
      ensures timeFilter == "month" && departments == []
    {
      timeFilter := "month";
      departments := [];
    }

    /** The effect body: load the mock table. */
    method LoadDepartments()
      modifies this`departments
      ensures departments == MockDepartments
    {
      departments := MockDepartments;
    }

    /**
      `setTimeFilter(f)`. The effect depends on the filter, so it runs again
      when the value changes; it loads the same table whatever the filter is.
    */
    method SetTimeFilter(f: string)
      modifies this
      ensures timeFilter == f
      ensures departments == if f != old(timeFilter) then MockDepartments else old(departments)
    {
      var changed := f != timeFilter;
      timeFilter := f;
      if changed {
        LoadDepartments();
      }
    }
  }
}
