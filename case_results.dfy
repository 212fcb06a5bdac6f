/**
 * The results page's data logic: the mock outcome synthesiser
 * (`getMockCaseAnalysis`), the timeline chart formatter, the bar colour
 * classifier and the upper bound read from an alternative's timeframe.
 *
 * `Math.random()` is replaced by a stream of injected draws, each a real in
 * [0, 1), consumed in the order the source evaluates its calls;
 * `Math.floor(Math.random() * n) + k` becomes `FloorDraw(r, n, k)`.
 */
module CaseResults {
  import opened Wrappers
  import opened NumberText

  datatype Summary = Summary(
    title: string,
    recommendation: string,
    confidence: int,
    duration: int,
    outcomeDescription: string)

  datatype Outcomes = Outcomes(win: int, settlement: int, loss: int)

  /** A dispute-resolution alternative; `name` is the source's `method` field. */
  datatype Alternative = Alternative(
    name: string,
    description: string,
    timeframe: string,
    successRate: int,
    recommended: bool)

  datatype TimelineEntry = TimelineEntry(month: int, phase: string, description: string)

  datatype SimilarCase = SimilarCase(title: string, outcome: string, duration: string, description: string)

  datatype CaseAnalysis = CaseAnalysis(
    summary: Summary,
    outcomes: Outcomes,
    alternatives: seq<Alternative>,
    timeline: seq<TimelineEntry>,
    similarCases: seq<SimilarCase>)

  /** The half-open integer band [lo, hi). */
  datatype Band = Band(lo: int, hi: int) {
    predicate Contains(v: int) {
      lo <= v < hi
    }
  }

  // ---------------------------------------------------------------------
  // Random draws
  // ---------------------------------------------------------------------

  /** Every draw is a value `Math.random()` can return. */
  predicate IsRandomStream(rs: seq<real>) {
    forall i :: 0 <= i < |rs| ==> 0.0 <= rs[i] < 1.0
  }

  /** `Math.floor(r * n) + k` for a draw `r`. */
  function FloorDraw(r: real, n: nat, k: int): (v: int)
    requires 0.0 <= r < 1.0 && n > 0
    ensures Band(k, k + n).Contains(v)
  {
    ScaledDrawBounds(r, n);
    (r * n as real).Floor + k
  }

  lemma ScaledDrawBounds(r: real, n: nat)
    requires 0.0 <= r < 1.0 && n > 0
    ensures 0 <= (r * n as real).Floor < n
  {
    var m := n as real;
    assert 0.0 <= r * m;
    assert m - r * m == (1.0 - r) * m;
    assert (1.0 - r) * m > 0.0;
  }

  /** The band is tight: each of its values comes out of some draw. */
  lemma FloorDrawReaches(n: nat, k: int, v: int)
    requires n > 0 && Band(k, k + n).Contains(v)
    ensures exists r: real :: 0.0 <= r < 1.0 && FloorDraw(r, n, k) == v
  {
    var r := (v - k) as real / n as real;
    assert r * n as real == (v - k) as real;
    assert 0.0 <= r < 1.0 by {
      assert (v - k) as real < n as real;
    }
    assert FloorDraw(r, n, k) == v;
  }

  /** The number of `Math.random()` calls the fixed record makes. */
  const BaselineDraws := 8

  /** Number of draws the case-type override makes on top of the baseline. */
  function OverrideDraws(caseType: string): (n: nat)
    ensures n <= 2
    ensures n == 0 <==> !IsRecognised(caseType)
  {
    if caseType == "property" || caseType == "business" || caseType == "criminal" then 2
    else if caseType == "family" then 1
    else 0
  }

  function DrawCount(caseType: string): nat {
    BaselineDraws + OverrideDraws(caseType)
  }

  /** The four recognised case types differ already in their first letter. */
  lemma CaseTypesDistinct()
    ensures "property" != "family" && "property" != "business" && "property" != "criminal"
    ensures "family" != "business" && "family" != "criminal" && "business" != "criminal"
  {
    assert "property"[0] == 'p' && "family"[0] == 'f' && "business"[0] == 'b' && "criminal"[0] == 'c';
  }

  predicate IsRecognised(caseType: string) {
    caseType == "property" || caseType == "family" || caseType == "business" || caseType == "criminal"
  }

  // ---------------------------------------------------------------------
  // The fixed content of the record
  // ---------------------------------------------------------------------

  const SummaryTitle := "Case Analysis Summary"
  const CourtRecommendation := "Proceed with Court Case"
  const CounselRecommendation := "Seek Specialized Legal Counsel"
  const BaselineConfidence := 76

  const DefaultDescription := "Based on your case details, AI predicts a favorable outcome with moderate confidence. Similar cases have succeeded when strong documentary evidence was presented."
  const PropertyDescription := "Property disputes tend to be lengthy in the Indian judicial system, but your documentary evidence strengthens your position."
  const FamilyDescription := "Family matters can be emotionally taxing. Courts often encourage mediation for faster resolution and preserving relationships."
  const BusinessDescription := "Contract disputes often hinge on documentation. Your case has merit, but consider arbitration for a quicker resolution while maintaining business relationships."
  const CriminalDescription := "Criminal cases require expert representation. The evidence supports your position, but specialized legal expertise is strongly recommended."

  const Mediation := Alternative(
    "Mediation",
    "A neutral third party would help you and the opposing party reach a mutually acceptable agreement.",
    "2-3 months", 65, true)
  const Arbitration := Alternative(
    "Arbitration",
    "An arbitrator would review evidence and make a binding decision, similar to a judge but in a private setting.",
    "3-5 months", 58, false)
  const LokAdalat := Alternative(
    "Lok Adalat",
    "These 'People's Courts' offer a forum where disputes can be settled amicably and informally.",
    "1-2 months", 72, true)

  const Alternatives: seq<Alternative> := [Mediation, Arbitration, LokAdalat]

  const SimilarCases: seq<SimilarCase> := [
    SimilarCase("Singh vs. Property Developer Ltd.", "Won", "18 months", "Land dispute with similar documentary evidence"),
    SimilarCase("Patel vs. Regional Authority", "Settled", "10 months", "Settled after strong initial arguments"),
    SimilarCase("Mehta inheritance dispute", "Partial win", "24 months", "Complex family property dispute")
  ]

  const Phases: seq<string> := [
    "Filing & Notices", "Initial Hearing", "Evidence Submission",
    "Witness Testimony", "Final Arguments", "Judgment"
  ]
  const PhaseDescriptions: seq<string> := [
    "Case filing, notice to opposition",
    "Preliminary arguments, case scheduling",
    "Documentary evidence presented",
    "Witness examination, cross-examination",
    "Closing arguments from both sides",
    "Final verdict delivered"
  ]

  // ---------------------------------------------------------------------
  // The bands each field is drawn from, per case type
  // ---------------------------------------------------------------------

  function DurationBand(caseType: string): Band {
    if caseType == "property" then Band(16, 36)
    else if caseType == "family" then Band(8, 20)
    else if caseType == "business" then Band(12, 27)
    else if caseType == "criminal" then Band(24, 54)
    else Band(6, 30)
  }

  function WinBand(caseType: string): Band {
    if caseType == "property" then Band(45, 75)
    else if caseType == "criminal" then Band(30, 60)
    else Band(50, 90)
  }

  function SettlementBand(caseType: string): Band {
    if caseType == "business" then Band(30, 70) else Band(10, 40)
  }

  const LossBand := Band(5, 25)

  /** The month bands of the six timeline phases; the first two are fixed. */
  const MonthBands: seq<Band> := [Band(1, 2), Band(2, 3), Band(4, 7), Band(8, 11), Band(12, 16), Band(18, 23)]

  function RecommendationFor(caseType: string): string {
    if caseType == "criminal" then CounselRecommendation else CourtRecommendation
  }

  function DescriptionFor(caseType: string): string {
    if caseType == "property" then PropertyDescription
    else if caseType == "family" then FamilyDescription
    else if caseType == "business" then BusinessDescription
    else if caseType == "criminal" then CriminalDescription
    else DefaultDescription
  }

  /** The six phases in their fixed order, each month inside its band. */
  predicate TimelineShape(t: seq<TimelineEntry>) {
    && |t| == 6
    && forall i :: 0 <= i < 6 ==>
         t[i].phase == Phases[i] && t[i].description == PhaseDescriptions[i] && MonthBands[i].Contains(t[i].month)
  }

  /** What every synthesised record has, whatever the case type and the draws. */
  predicate WellFormed(a: CaseAnalysis) {
    && a.summary.title == SummaryTitle
    && a.summary.confidence == BaselineConfidence
    && a.alternatives == Alternatives
    && TimelineShape(a.timeline)
    && a.similarCases == SimilarCases
  }

  // ---------------------------------------------------------------------
  // The synthesiser
  // ---------------------------------------------------------------------

  function TimelineEntryAt(i: nat, month: int): TimelineEntry
    requires i < 6
  {
    TimelineEntry(month, Phases[i], PhaseDescriptions[i])
  }

  /** The six phases of the record literal, four of them with drawn months. */
  function BaselineTimeline(rs: seq<real>): (t: seq<TimelineEntry>)
    requires |rs| >= BaselineDraws && IsRandomStream(rs)
    ensures TimelineShape(t)
  {
    [ TimelineEntryAt(0, 1),
      TimelineEntryAt(1, 2),
      TimelineEntryAt(2, FloorDraw(rs[4], 3, 4)),
      TimelineEntryAt(3, FloorDraw(rs[5], 3, 8)),
      TimelineEntryAt(4, FloorDraw(rs[6], 4, 12)),
      TimelineEntryAt(5, FloorDraw(rs[7], 5, 18)) ]
  }

  /** The record literal, before the case-type adjustment. */
  function Baseline(rs: seq<real>): (a: CaseAnalysis)
    requires |rs| >= BaselineDraws && IsRandomStream(rs)
    ensures WellFormed(a)
    ensures DurationBand("").Contains(a.summary.duration)
    ensures WinBand("").Contains(a.outcomes.win)
    ensures SettlementBand("").Contains(a.outcomes.settlement)
    ensures LossBand.Contains(a.outcomes.loss)
    ensures a.summary.recommendation == CourtRecommendation
    ensures a.summary.outcomeDescription == DefaultDescription
  {
    CaseAnalysis(
      Summary(SummaryTitle, CourtRecommendation, BaselineConfidence, FloorDraw(rs[0], 24, 6), DefaultDescription),
      Outcomes(FloorDraw(rs[1], 40, 50), FloorDraw(rs[2], 30, 10), FloorDraw(rs[3], 20, 5)),
      [Mediation, Arbitration, LokAdalat],
      BaselineTimeline(rs),
      SimilarCases)
  }

  /**
   * `getMockCaseAnalysis(caseType)`: the baseline record, then the fields the
   * case type overrides, redrawn from the next draws in the stream.
   */
  method GetMockCaseAnalysis(caseType: string, rs: seq<real>) returns (analysis: CaseAnalysis)
    requires |rs| == DrawCount(caseType) && IsRandomStream(rs)
    ensures WellFormed(analysis)
    ensures DurationBand(caseType).Contains(analysis.summary.duration)
    ensures WinBand(caseType).Contains(analysis.outcomes.win)
    ensures SettlementBand(caseType).Contains(analysis.outcomes.settlement)
    ensures LossBand.Contains(analysis.outcomes.loss)
    ensures analysis.summary.recommendation == RecommendationFor(caseType)
    ensures analysis.summary.outcomeDescription == DescriptionFor(caseType)
    // fields no override touches keep their baseline draws
    ensures analysis.timeline == Baseline(rs).timeline
    ensures analysis.outcomes.loss == Baseline(rs).outcomes.loss
    ensures caseType != "property" && caseType != "criminal" ==> analysis.outcomes.win == Baseline(rs).outcomes.win
    ensures caseType != "business" ==> analysis.outcomes.settlement == Baseline(rs).outcomes.settlement
    ensures !IsRecognised(caseType) ==> analysis == Baseline(rs)
    // the overrides redraw from the two draws after the baseline's, duration first
    ensures caseType == "property" ==>
      analysis.summary.duration == FloorDraw(rs[8], 20, 16) && analysis.outcomes.win == FloorDraw(rs[9], 30, 45)
    ensures caseType == "family" ==> analysis.summary.duration == FloorDraw(rs[8], 12, 8)
    ensures caseType == "business" ==>
      analysis.summary.duration == FloorDraw(rs[8], 15, 12) && analysis.outcomes.settlement == FloorDraw(rs[9], 40, 30)
    ensures caseType == "criminal" ==>
      analysis.summary.duration == FloorDraw(rs[8], 30, 24) && analysis.outcomes.win == FloorDraw(rs[9], 30, 30)
    // the months strictly increase, so the chart keeps the generated order (GeneratedTimelineInOrder)
    ensures forall i, j :: 0 <= i < j < |analysis.timeline| ==> analysis.timeline[i].month < analysis.timeline[j].month
  {
    CaseTypesDistinct();
    var base := Baseline(rs);
    TimelineMonthsIncreasing(base.timeline);
    analysis := base;
    if caseType == "property" {
      analysis := analysis.(summary := analysis.summary.(duration := FloorDraw(rs[8], 20, 16)));
      analysis := analysis.(outcomes := analysis.outcomes.(win := FloorDraw(rs[9], 30, 45)));
      analysis := analysis.(summary := analysis.summary.(outcomeDescription := PropertyDescription));
    } else if caseType == "family" {
      analysis := analysis.(summary := analysis.summary.(duration := FloorDraw(rs[8], 12, 8)));
      analysis := analysis.(alternatives := analysis.alternatives[0 := analysis.alternatives[0].(recommended := true)]);
      analysis := analysis.(summary := analysis.summary.(outcomeDescription := FamilyDescription));
      assert analysis.alternatives == Alternatives;
    } else if caseType == "business" {
      analysis := analysis.(summary := analysis.summary.(duration := FloorDraw(rs[8], 15, 12)));
      analysis := analysis.(outcomes := analysis.outcomes.(settlement := FloorDraw(rs[9], 40, 30)));
      analysis := analysis.(summary := analysis.summary.(outcomeDescription := BusinessDescription));
    } else if caseType == "criminal" {
      analysis := analysis.(summary := analysis.summary.(duration := FloorDraw(rs[8], 30, 24)));
      analysis := analysis.(outcomes := analysis.outcomes.(win := FloorDraw(rs[9], 30, 30)));
      analysis := analysis.(summary := analysis.summary.(recommendation := CounselRecommendation));
      analysis := analysis.(summary := analysis.summary.(outcomeDescription := CriminalDescription));
    }
  }

  /** With the draws injected, the same case type and the same draws give the same record. */
  method SameDrawsSameAnalysis(caseType: string, rs: seq<real>) returns (first: CaseAnalysis, second: CaseAnalysis)
    requires |rs| == DrawCount(caseType) && IsRandomStream(rs)
    ensures first == second
  {
    first := GetMockCaseAnalysis(caseType, rs);
    second := GetMockCaseAnalysis(caseType, rs);
  }

  /** The month bands are disjoint and ascending, so the months strictly increase. */
  lemma TimelineMonthsIncreasing(t: seq<TimelineEntry>)
    requires TimelineShape(t)
    ensures forall i, j :: 0 <= i < j < |t| ==> t[i].month < t[j].month
  {
    forall i | 0 <= i < 5 ensures t[i].month < t[i + 1].month {
      assert MonthBands[i].Contains(t[i].month) && MonthBands[i + 1].Contains(t[i + 1].month);
    }
  }

  /** A generated timeline is already in the order the chart sorts it into. */
  lemma GeneratedTimelineInOrder(t: seq<TimelineEntry>)
    requires TimelineShape(t)
    ensures SortByMonth(t) == t
  {
    TimelineMonthsIncreasing(t);
    SortedIsFixpoint(t);
  }

  /** Mediation is recommended for every case type (already so in the baseline). */
  lemma AlternativesFixed(a: CaseAnalysis)
    requires WellFormed(a)
    ensures |a.alternatives| == 3
    ensures a.alternatives[0].name == "Mediation" && a.alternatives[0].recommended
    ensures a.alternatives[1].name == "Arbitration" && !a.alternatives[1].recommended
    ensures a.alternatives[2].name == "Lok Adalat" && a.alternatives[2].recommended
  {
  }

  // ---------------------------------------------------------------------
  // formatTimelineData: a stable sort by month, then a map to chart points
  // ---------------------------------------------------------------------

  predicate SortedByMonth(s: seq<TimelineEntry>) {
    forall i, j :: 0 <= i < j < |s| ==> s[i].month <= s[j].month
  }

  /** Inserts `e` ahead of the first entry whose month is not smaller. */
  function InsertByMonth(e: TimelineEntry, s: seq<TimelineEntry>): (r: seq<TimelineEntry>)
    requires SortedByMonth(s)
    ensures SortedByMonth(r)
    ensures multiset(r) == multiset(s) + multiset{e}
    ensures |r| == |s| + 1
    ensures r[0] == e || (s != [] && r[0] == s[0])
  {
    if s == [] || e.month <= s[0].month then
      SortedCons(e, s);
      [e] + s
    else
      var tail := InsertByMonth(e, s[1..]);
      assert multiset(s) == multiset{s[0]} + multiset(s[1..]) by {
        assert s == [s[0]] + s[1..];
      }
      SortedCons(s[0], tail);
      [s[0]] + tail
  }

  lemma SortedCons(x: TimelineEntry, t: seq<TimelineEntry>)
    requires SortedByMonth(t)
    requires t == [] || x.month <= t[0].month
    ensures SortedByMonth([x] + t)
  {
    var r := [x] + t;
    forall i, j | 0 <= i < j < |r| ensures r[i].month <= r[j].month {
      if i > 0 {
        assert r[i] == t[i - 1] && r[j] == t[j - 1];
      } else {
        assert r[j] == t[j - 1];
        assert t[0].month <= t[j - 1].month;
      }
    }
  }

  /** `[...timeline].sort((a, b) => a.month - b.month)`: the sort is stable. */
  function SortByMonth(s: seq<TimelineEntry>): (r: seq<TimelineEntry>)
    ensures SortedByMonth(r)
    ensures multiset(r) == multiset(s)
    ensures |r| == |s|
  {
    if s == [] then []
    else
      assert s == [s[0]] + s[1..];
      InsertByMonth(s[0], SortByMonth(s[1..]))
  }

  /** The entries of `s` whose month is `m`, in their order in `s`. */
  function WithMonth(s: seq<TimelineEntry>, m: int): seq<TimelineEntry> {
    if s == [] then [] else (if s[0].month == m then [s[0]] else []) + WithMonth(s[1..], m)
  }

  lemma {:induction false} InsertByMonthStable(e: TimelineEntry, s: seq<TimelineEntry>, m: int)
    requires SortedByMonth(s)
    ensures WithMonth(InsertByMonth(e, s), m) == (if e.month == m then [e] else []) + WithMonth(s, m)
    decreases |s|
  {
    if s == [] || e.month <= s[0].month {
      WithMonthCons(e, s, m);
    } else {
      var tail := InsertByMonth(e, s[1..]);
      InsertByMonthStable(e, s[1..], m);
      WithMonthCons(s[0], tail, m);
      WithMonthCons(s[0], s[1..], m);
      assert InsertByMonth(e, s) == [s[0]] + tail;
      assert [s[0]] + s[1..] == s;
    }
  }

  lemma WithMonthCons(x: TimelineEntry, t: seq<TimelineEntry>, m: int)
    ensures WithMonth([x] + t, m) == (if x.month == m then [x] else []) + WithMonth(t, m)
  {
    assert ([x] + t)[1..] == t;
  }

  /** Entries with equal months keep their relative order. */
  lemma {:induction false} SortByMonthStable(s: seq<TimelineEntry>, m: int)
    ensures WithMonth(SortByMonth(s), m) == WithMonth(s, m)
    decreases |s|
  {
    if s != [] {
      SortByMonthStable(s[1..], m);
      InsertByMonthStable(s[0], SortByMonth(s[1..]), m);
    }
  }

  /** Sorting what is already in month order changes nothing. */
  lemma {:induction false} SortedIsFixpoint(s: seq<TimelineEntry>)
    requires SortedByMonth(s)
    ensures SortByMonth(s) == s
    decreases |s|
  {
    if s != [] {
      assert SortedByMonth(s[1..]);
      SortedIsFixpoint(s[1..]);
      assert s == [s[0]] + s[1..];
    }
  }

  datatype ChartPoint = ChartPoint(name: string, value: int, phase: string, description: string)

  /** The axis label of a month: "Month " and the month's decimal text. */
  function ChartLabel(month: int): (text: string)
    ensures |text| > 6 && text[..6] == "Month "
    ensures text[6] == '-' <==> month < 0
  {
    "Month " + IntToString(month)
  }

  function ToChartPoint(e: TimelineEntry): (p: ChartPoint)
    ensures FromChartPoint(p) == e
    ensures p.name == ChartLabel(p.value)
  {
    ChartPoint(ChartLabel(e.month), e.month, e.phase, e.description)
  }

  /** The timeline entry a chart point was made from. */
  function FromChartPoint(p: ChartPoint): TimelineEntry {
    TimelineEntry(p.value, p.phase, p.description)
  }

  function Entries(points: seq<ChartPoint>): (r: seq<TimelineEntry>)
    ensures |r| == |points|
    ensures forall i :: 0 <= i < |r| ==> r[i] == FromChartPoint(points[i])
  {
    seq(|points|, i requires 0 <= i < |points| => FromChartPoint(points[i]))
  }

  /** `formatTimelineData(timeline)`. */
  function FormatTimelineData(timeline: seq<TimelineEntry>): (points: seq<ChartPoint>)
    ensures |points| == |timeline|
    ensures forall i :: 0 <= i < |points| ==> points[i].name == ChartLabel(points[i].value)
    ensures forall i, j :: 0 <= i < j < |points| ==> points[i].value <= points[j].value
    ensures multiset(Entries(points)) == multiset(timeline)
    ensures forall m :: WithMonth(Entries(points), m) == WithMonth(timeline, m)
  {
    var sorted := SortByMonth(timeline);
    var points := seq(|sorted|, i requires 0 <= i < |sorted| => ToChartPoint(sorted[i]));
    assert Entries(points) == sorted;
    SortByMonthStableAll(timeline);
    points
  }

  lemma SortByMonthStableAll(s: seq<TimelineEntry>)
    ensures forall m :: WithMonth(SortByMonth(s), m) == WithMonth(s, m)
  {
    forall m ensures WithMonth(SortByMonth(s), m) == WithMonth(s, m) {
      SortByMonthStable(s, m);
    }
  }

  /** A chart label reads back, through `parseInt`, as the month it names. */
  lemma ChartLabelReadsBack(month: int)
    ensures ChartLabel(month)[..6] == "Month "
    ensures ParseInt(ChartLabel(month)[6..]) == Some(month)
  {
    assert ChartLabel(month)[6..] == IntToString(month) + "";
    ParseIntToString(month, "");
  }

  // ---------------------------------------------------------------------
  // getBarColor
  // ---------------------------------------------------------------------

  const Green := "#4ade80"
  const Yellow := "#facc15"
  const Red := "#f87171"

  function GetBarColor(value: int): (color: string)
    ensures color == Green <==> value >= 70
    ensures color == Yellow <==> 40 <= value < 70
    ensures color == Red <==> value < 40
  {
    if value >= 70 then Green else if value >= 40 then Yellow else Red
  }

  function ColorRank(color: string): nat {
    if color == Green then 2 else if color == Yellow then 1 else 0
  }

  /** A larger value never gets a lower colour. */
  lemma BarColorMonotone(v: int, w: int)
    requires v <= w
    ensures ColorRank(GetBarColor(v)) <= ColorRank(GetBarColor(w))
  {
  }

  // ---------------------------------------------------------------------
  // The upper bound of an "X-Y months" timeframe
  // ---------------------------------------------------------------------

  /** `parseInt(timeframe.split('-')[1])`; `None` for `NaN`, including a missing second field. */
  function TimeframeUpperBound(timeframe: string): (bound: Option<int>)
    ensures bound.Some? ==> '-' in timeframe
  {
    var fields := Split(timeframe, '-');
    SplitNeedsSeparator(timeframe, '-');
    if |fields| < 2 then None else ParseInt(fields[1])
  }

  lemma TimeframeUpperBoundOfRange(x: nat, y: nat)
    ensures TimeframeUpperBound(NatToString(x) + "-" + NatToString(y) + " months") == Some(y)
  {
    var a := NatToString(x);
    var b := NatToString(y) + " months";
    assert a + "-" + NatToString(y) + " months" == a + ['-'] + b;
    assert '-' !in a by {
      assert forall i :: 0 <= i < |a| ==> IsRadixDigit(a[i], 10);
    }
    assert '-' !in b by {
      var d := NatToString(y);
      assert forall i :: 0 <= i < |d| ==> IsRadixDigit(d[i], 10);
      assert b == d + " months";
    }
    SplitAfterField(a, '-', b);
    SplitNoSeparator(b, '-');
    ParseNatToString(y, " months");
  }

  /** Without a dash there is no second field, and the bound is `NaN`. */
  lemma TimeframeWithoutDash(timeframe: string)
    requires '-' !in timeframe
    ensures TimeframeUpperBound(timeframe) == None
  {
    SplitNoSeparator(timeframe, '-');
  }

  lemma AlternativeUpperBounds()
    ensures TimeframeUpperBound(Mediation.timeframe) == Some(3)
    ensures TimeframeUpperBound(Arbitration.timeframe) == Some(5)
    ensures TimeframeUpperBound(LokAdalat.timeframe) == Some(2)
  {
    assert DigitChar(1) == '1' && DigitChar(2) == '2' && DigitChar(3) == '3' && DigitChar(5) == '5';
    assert Mediation.timeframe == [DigitChar(2), '-', DigitChar(3)] + " months";
    assert Arbitration.timeframe == [DigitChar(3), '-', DigitChar(5)] + " months";
    assert LokAdalat.timeframe == [DigitChar(1), '-', DigitChar(2)] + " months";
    RangeText(2, 3);
    RangeText(3, 5);
    RangeText(1, 2);
  }

  lemma RangeText(x: nat, y: nat)
    requires 0 < x < 10 && 0 < y < 10
    ensures TimeframeUpperBound([DigitChar(x), '-', DigitChar(y)] + " months") == Some(y)
  {
    assert NatToString(x) == [DigitChar(x)] && NatToString(y) == [DigitChar(y)];
    assert [DigitChar(x), '-', DigitChar(y)] + " months" == NatToString(x) + "-" + NatToString(y) + " months";
    TimeframeUpperBoundOfRange(x, y);
  }
}
