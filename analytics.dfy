/** The analytics page: the five analytics loads, the chart data prepared
    from their responses (the agency and type responses sorted in place by
    descending count) and the date filters. */
module GeneralManagement {
  import opened Wrappers
  import opened Text
  import opened Browser
  import opened Http
  import opened Models
  import GeneralManagementService

  /** The regular expression class `\w`. */
  predicate IsWordChar(c: char) {
    IsAsciiUpper(c) || IsAsciiLower(c) || IsAsciiDigit(c) || c == '_'
  }

  /** `\b\w` matches at `i`: a word character with no word character
      before it. */
  predicate WordStart(t: string, i: nat)
    requires i < |t|
  {
    IsWordChar(t[i]) && (i == 0 || !IsWordChar(t[i - 1]))
  }

  /** `s.replace(/_/g, ' ')` */
  function SpaceUnderscores(s: string): string {
    seq(|s|, i requires 0 <= i < |s| => if s[i] == '_' then ' ' else s[i])
  }

  /** `t.replace(/\b\w/g, char => char.toUpperCase())` */
  function CapitalizeWords(t: string): string {
    seq(|t|, i requires 0 <= i < |t| => if WordStart(t, i) then ToUpperChar(t[i]) else t[i])
  }

  /** `formatStatusLabel(status)`. With `t` the input with underscores as
      spaces, in lower case: the label has the input's length and no
      underscore, differs from `t` only in case, has its capitals only where
      a word starts, and every word starting with a letter starts with a
      capital. */
  function FormatStatusLabel(status: string): (shown: string)
    ensures |shown| == |status|
    ensures forall i :: 0 <= i < |shown| ==> shown[i] != '_'
    ensures ToLower(shown) == ToLower(SpaceUnderscores(status))
    ensures var t := ToLower(SpaceUnderscores(status));
            forall i :: 0 <= i < |shown| ==>
              && (IsAsciiUpper(shown[i]) ==> WordStart(t, i))
              && (WordStart(t, i) && IsAsciiLower(t[i]) ==> IsAsciiUpper(shown[i]))
  {
    var t := ToLower(SpaceUnderscores(status));
    var shown := CapitalizeWords(t);
    assert forall i :: 0 <= i < |t| ==> ToLower(shown)[i] == ToLower(SpaceUnderscores(status))[i];
    shown
  }

  /** The label of the backend's `IN_PROGRESS`. */
  lemma FormatInProgress()
    ensures FormatStatusLabel("IN_PROGRESS") == "In Progress"
  {
    var t := ToLower(SpaceUnderscores("IN_PROGRESS"));
    assert t == "in progress";
    assert WordStart(t, 0) && WordStart(t, 3);
    assert forall i :: 0 <= i < |t| && i != 0 && i != 3 ==> !WordStart(t, i);
  }

  const FallbackColor := "#6b7280"

  const StatusColors: map<string, string> := map[
    "PENDING" := "#f59e0b",
    "IN_PROGRESS" := "#3b82f6",
    "RESOLVED" := "#10b981",
    "REJECTED" := "#ef4444",
    "CLOSED" := "#6b7280"]

  /** `statusColors[status] || '#6b7280'`: the table is keyed by upper-case
      codes and every other status is grey. */
  function StatusColor(status: string): (color: string)
    ensures status in StatusColors ==> color == StatusColors[status]
    ensures status !in StatusColors ==> color == FallbackColor
  {
    if status in StatusColors && StatusColors[status] != "" then StatusColors[status] else FallbackColor
  }

  /** The complaint status codes are lower case, so a response carrying
      them would colour every bar grey. */
  lemma LowerCaseCodesAreGrey(s: ComplaintStatus)
    ensures StatusColor(s.Code()) == FallbackColor
  {
    assert s.Code() !in StatusColors;
  }

  /** One bar of a chart; only the status chart has colours. */
  datatype ChartItem = ChartItem(caption: string, value: int, color: Option<string>)

  /** `complaintsByStatus.data.map(...)`: one bar per entry, in the same
      order, labelled, valued by its count and coloured by its status. */
  function StatusChart(data: seq<StatusData>): (bars: seq<ChartItem>)
    ensures |bars| == |data|
    ensures forall i :: 0 <= i < |data| ==>
              && bars[i].value == data[i].count
              && bars[i].caption == FormatStatusLabel(data[i].status)
              && bars[i].color == Some(StatusColor(data[i].status))
  {
    seq(|data|, i requires 0 <= i < |data| =>
      ChartItem(FormatStatusLabel(data[i].status), data[i].count, Some(StatusColor(data[i].status))))
  }

  function AgencyCount(d: AgencyData): int { d.count }

  function TypeCount(d: TypeData): int { d.count }

  /** The order `sort((a, b) => b.count - a.count)` produces. */
  predicate NonIncreasing<T>(s: seq<T>, count: T -> int) {
    forall i, j :: 0 <= i < j < |s| ==> count(s[i]) >= count(s[j])
  }

  /** `Array.prototype.sort` with the comparator `b.count - a.count`, done
      as an insertion sort. */
  method SortByCountDescending<T>(a: array<T>, count: T -> int)
    modifies a
    ensures NonIncreasing(a[..], count)
    ensures multiset(a[..]) == multiset(old(a[..]))
  {
    var i := 0;
    while i < a.Length
      invariant 0 <= i <= a.Length
      invariant forall p, q :: 0 <= p < q < i ==> count(a[p]) >= count(a[q])
      invariant multiset(a[..]) == multiset(old(a[..]))
    {
      SinkEntry(a, i, count);
      i := i + 1;
    }
  }

  /** One insertion step: the entry at `i` is swapped forward past every
      entry with a smaller count, so the first `i + 1` entries end up in
      order. */
  method SinkEntry<T>(a: array<T>, i: nat, count: T -> int)
    requires i < a.Length
    requires forall p, q :: 0 <= p < q < i ==> count(a[p]) >= count(a[q])
    modifies a
    ensures forall p, q :: 0 <= p < q <= i ==> count(a[p]) >= count(a[q])
    ensures multiset(a[..]) == multiset(old(a[..]))
  {
    var j := i;
    while j > 0 && count(a[j - 1]) < count(a[j])
      invariant 0 <= j <= i
      invariant forall p, q :: 0 <= p < q <= i && p != j && q != j ==> count(a[p]) >= count(a[q])
      invariant forall q :: j < q <= i ==> count(a[j]) > count(a[q])
      invariant multiset(a[..]) == multiset(old(a[..]))
    {
      Swap(a, j - 1, j);
      j := j - 1;
    }
  }

  /** Exchanges two neighbouring entries. */
  method Swap<T>(a: array<T>, i: nat, j: nat)
    requires i < j < a.Length
    modifies a
    ensures a[i] == old(a[j]) && a[j] == old(a[i])
    ensures forall k :: 0 <= k < a.Length && k != i && k != j ==> a[k] == old(a[k])
    ensures multiset(a[..]) == multiset(old(a[..]))
  {
    a[i], a[j] := a[j], a[i];
  }

  function Min(a: int, b: int): int { if a <= b then a else b }

  /** `.slice(0, 10).map(...)` over the sorted agencies. */
  function AgencyChart(sorted: seq<AgencyData>): (bars: seq<ChartItem>)
    ensures |bars| == Min(10, |sorted|)
    ensures forall i :: 0 <= i < |bars| ==> bars[i] == ChartItem(sorted[i].agencyName, sorted[i].count, None)
  {
    var top := sorted[..Min(10, |sorted|)];
    seq(|top|, i requires 0 <= i < |top| => ChartItem(top[i].agencyName, top[i].count, None))
  }

  /** On sorted data the chart shows the ten busiest agencies, busiest
      first: no agency left off has more complaints than one shown. */
  lemma TopTenDominates(sorted: seq<AgencyData>)
    requires NonIncreasing(sorted, AgencyCount)
    ensures forall i, j :: 0 <= i < j < |AgencyChart(sorted)| ==> AgencyChart(sorted)[i].value >= AgencyChart(sorted)[j].value
    ensures forall i, k :: 0 <= i < |AgencyChart(sorted)| <= k < |sorted| ==> AgencyChart(sorted)[i].value >= sorted[k].count
  {
    var bars := AgencyChart(sorted);
    forall i, k | 0 <= i < |bars| <= k < |sorted| ensures bars[i].value >= sorted[k].count {
      assert AgencyCount(sorted[i]) >= AgencyCount(sorted[k]);
    }
  }

  /** `.map(...)` over the sorted types: every type, none dropped. */
  function TypeChart(sorted: seq<TypeData>): (bars: seq<ChartItem>)
    ensures |bars| == |sorted|
    ensures forall i :: 0 <= i < |bars| ==> bars[i] == ChartItem(sorted[i].typeName, sorted[i].count, None)
  {
    seq(|sorted|, i requires 0 <= i < |sorted| => ChartItem(sorted[i].typeName, sorted[i].count, None))
  }

  /** `getMaxValue(data)`: 0 for no bars, otherwise the largest value. */
  function GetMaxValue(data: seq<ChartItem>): (m: int)
    ensures |data| == 0 ==> m == 0
    ensures |data| > 0 ==> exists i :: 0 <= i < |data| && data[i].value == m
    ensures forall i :: 0 <= i < |data| ==> data[i].value <= m
    decreases |data|
  {
    if |data| == 0 then 0
    else if |data| == 1 then data[0].value
    else
      var init := data[..|data| - 1];
      var m := GetMaxValue(init);
      assert forall i :: 0 <= i < |init| ==> init[i] == data[i];
      if m >= data[|data| - 1].value then m else data[|data| - 1].value
  }

  /** The sum `reduce((sum, item) => sum + item.value, 0)`, left to right. */
  function Total(data: seq<ChartItem>): (total: int)
    ensures |data| == 0 ==> total == 0
    ensures (forall i :: 0 <= i < |data| ==> data[i].value >= 0) ==> total >= 0
    ensures (forall i :: 0 <= i < |data| ==> data[i].value >= 0) ==> forall i :: 0 <= i < |data| ==> data[i].value <= total
    decreases |data|
  {
    if |data| == 0 then 0 else Total(data[..|data| - 1]) + data[|data| - 1].value
  }

  /** The sum of the counts in a status response. */
  function CountSum(data: seq<StatusData>): int
    decreases |data|
  {
    if |data| == 0 then 0 else CountSum(data[..|data| - 1]) + data[|data| - 1].count
  }

  /** `getTotalStatusCount()` on the chart built from a response is the sum
      of the response's counts. */
  lemma {:induction false} StatusTotalIsCountSum(data: seq<StatusData>)
    ensures Total(StatusChart(data)) == CountSum(data)
    decreases |data|
  {
    if |data| > 0 {
      var init := data[..|data| - 1];
      StatusTotalIsCountSum(init);
      assert StatusChart(data)[..|data| - 1] == StatusChart(init);
    }
  }

  /** With no negative counts the largest bar never exceeds the total. */
  lemma {:induction false} MaxAtMostTotal(data: seq<ChartItem>)
    requires forall i :: 0 <= i < |data| ==> data[i].value >= 0
    ensures 0 <= GetMaxValue(data) <= Total(data)
    decreases |data|
  {
    if |data| > 1 {
      var init := data[..|data| - 1];
      MaxAtMostTotal(init);
      assert forall i :: 0 <= i < |init| ==> init[i] == data[i];
    }
  }

  /** `buildQueryParams()`: each date filter that is set, converted by
      `toIso` (`new Date(d).toISOString()`). */
  function QueryParams(startDate: string, endDate: string, toIso: string -> string): (q: AnalyticsQuery)
    ensures q.startDate.Some? <==> startDate != ""
    ensures q.endDate.Some? <==> endDate != ""
    ensures startDate != "" ==> q.startDate.value == toIso(startDate)
    ensures endDate != "" ==> q.endDate.value == toIso(endDate)
  {
    AnalyticsQuery(if startDate != "" then Some(toIso(startDate)) else None,
                   if endDate != "" then Some(toIso(endDate)) else None)
  }

  /** With both date filters cleared the analytics calls send no
      parameters at all. */
  lemma ClearedDatesSendNothing(toIso: string -> string)
    ensures GeneralManagementService.BuildParams(Some(QueryParams("", "", toIso))) == []
  {
    var p := GeneralManagementService.BuildParams(Some(QueryParams("", "", toIso)));
    if p != [] {
      assert p[0].0 in Keys(p);
      GeneralManagementService.BuildParamsLookup(Some(QueryParams("", "", toIso)), p[0].0);
      assert false;
    }
  }

  datatype AnalyticsRequest =
    | GetPerformanceStats(query: AnalyticsQuery)
    | GetComplaintsByStatus(query: AnalyticsQuery)
    | GetComplaintsByAgency(query: AnalyticsQuery)
    | GetComplaintsByType(query: AnalyticsQuery)
    | GetResolutionTimeStats(query: AnalyticsQuery)

  /** The five loads `loadAllAnalytics()` starts, in its order. */
  function AllLoads(q: AnalyticsQuery): (loads: seq<AnalyticsRequest>)
    ensures |loads| == 5
    ensures forall i :: 0 <= i < 5 ==> loads[i].query == q
  {
    [GetPerformanceStats(q), GetComplaintsByStatus(q), GetComplaintsByAgency(q),
     GetComplaintsByType(q), GetResolutionTimeStats(q)]
  }

  class GeneralManagementComponent {
    var loading: bool
    var error: Option<string>
    var startDate: string
    var endDate: string
    var performanceStats: Option<PerformanceStats>
    var complaintsByStatus: Option<seq<StatusData>>
    var complaintsByAgency: array?<AgencyData>
    var complaintsByType: array?<TypeData>
    var resolutionTimeStats: Option<ResolutionTimeStats>
    var statusChartData: seq<ChartItem>
    var agencyChartData: seq<ChartItem>
    var typeChartData: seq<ChartItem>
    var issued: seq<AnalyticsRequest>

    constructor ()
      ensures !loading && error == None && startDate == "" && endDate == ""
      ensures performanceStats == None && complaintsByStatus == None
      ensures complaintsByAgency == null && complaintsByType == null && resolutionTimeStats == None
      ensures statusChartData == [] && agencyChartData == [] && typeChartData == [] && issued == []
    {
      loading := false;
      error := None;
      startDate := "";
      endDate := "";
      performanceStats := None;
      complaintsByStatus := None;
      complaintsByAgency := null;
      complaintsByType := null;
      resolutionTimeStats := None;
      statusChartData := [];
      agencyChartData := [];
      typeChartData := [];
      issued := [];
    }

    /** `loadAllAnalytics()` up to the requests: all five carry the same
      date parameters. */
    method LoadAllAnalytics(toIso: string -> string)
      modifies this
      ensures loading && error == None
      ensures issued == old(issued) + AllLoads(QueryParams(startDate, endDate, toIso))
      ensures startDate == old(startDate) && endDate == old(endDate)
      ensures performanceStats == old(performanceStats) && complaintsByStatus == old(complaintsByStatus)
      ensures complaintsByAgency == old(complaintsByAgency) && complaintsByType == old(complaintsByType)
      ensures resolutionTimeStats == old(resolutionTimeStats)
      ensures statusChartData == old(statusChartData) && agencyChartData == old(agencyChartData)
      ensures typeChartData == old(typeChartData)
    {
      loading := true;
      error := None;
      var q := AnalyticsQuery(None, None);
      if startDate != "" {
        q := q.(startDate := Some(toIso(startDate)));
      }
      if endDate != "" {
        q := q.(endDate := Some(toIso(endDate)));
      }
      issued := issued + [GetPerformanceStats(q), GetComplaintsByStatus(q), GetComplaintsByAgency(q),
                          GetComplaintsByType(q), GetResolutionTimeStats(q)];
    }

    /** `clearDateFilters()`: both dates are emptied before the reload, so
      the reload sends no date (`ClearedDatesSendNothing`). */
    method ClearDateFilters(toIso: string -> string)
      modifies this
      ensures startDate == "" && endDate == ""
      ensures loading && error == None
      ensures issued == old(issued) + AllLoads(QueryParams("", "", toIso))
      ensures performanceStats == old(performanceStats) && complaintsByStatus == old(complaintsByStatus)
      ensures complaintsByAgency == old(complaintsByAgency) && complaintsByType == old(complaintsByType)
      ensures resolutionTimeStats == old(resolutionTimeStats)
      ensures statusChartData == old(statusChartData) && agencyChartData == old(agencyChartData)
      ensures typeChartData == old(typeChartData)
    {
      startDate := "";
      endDate := "";
      LoadAllAnalytics(toIso);
    }

    /** The callbacks of the performance load. */
    method OnPerformanceLoaded(outcome: Result<PerformanceStats, HttpError>)
      modifies this
      ensures !loading
      ensures outcome.Success? ==> performanceStats == Some(outcome.value) && error == old(error)
      ensures outcome.Failure? ==>
                performanceStats == old(performanceStats) && error == Some("Failed to load performance statistics")
      ensures issued == old(issued) && startDate == old(startDate) && endDate == old(endDate)
      ensures complaintsByStatus == old(complaintsByStatus)
      ensures complaintsByAgency == old(complaintsByAgency) && complaintsByType == old(complaintsByType)
      ensures resolutionTimeStats == old(resolutionTimeStats)
      ensures statusChartData == old(statusChartData) && agencyChartData == old(agencyChartData)
      ensures typeChartData == old(typeChartData)
    {
      match outcome
      case Success(stats) =>
        performanceStats := Some(stats);
        loading := false;
      case Failure(_) =>
        error := Some("Failed to load performance statistics");
        loading := false;
    }

    /** `prepareStatusChartData()`: rebuilds the status chart from the
      response, or changes nothing when there is none. */
    method PrepareStatusChartData()
      modifies this
      ensures complaintsByStatus.Some? ==> statusChartData == StatusChart(complaintsByStatus.value)
      ensures complaintsByStatus.None? ==> statusChartData == old(statusChartData)
      ensures complaintsByStatus == old(complaintsByStatus)
      ensures loading == old(loading) && error == old(error) && issued == old(issued)
      ensures startDate == old(startDate) && endDate == old(endDate)
      ensures performanceStats == old(performanceStats) && resolutionTimeStats == old(resolutionTimeStats)
      ensures complaintsByAgency == old(complaintsByAgency) && complaintsByType == old(complaintsByType)
      ensures agencyChartData == old(agencyChartData) && typeChartData == old(typeChartData)
    {
      if complaintsByStatus.None? {
        return;
      }
      statusChartData := StatusChart(complaintsByStatus.value);
    }

    /** `prepareAgencyChartData()`: sorts the stored response itself by
      descending count and charts its first ten entries; without a response
      nothing changes. */
    method PrepareAgencyChartData()
      modifies this, complaintsByAgency
      ensures complaintsByAgency == old(complaintsByAgency)
      ensures complaintsByAgency != null ==>
                && NonIncreasing(complaintsByAgency[..], AgencyCount)
                && multiset(complaintsByAgency[..]) == multiset(old(complaintsByAgency[..]))
                && agencyChartData == AgencyChart(complaintsByAgency[..])
      ensures complaintsByAgency == null ==> agencyChartData == old(agencyChartData)
      ensures loading == old(loading) && error == old(error) && issued == old(issued)
      ensures startDate == old(startDate) && endDate == old(endDate)
      ensures performanceStats == old(performanceStats) && resolutionTimeStats == old(resolutionTimeStats)
      ensures complaintsByStatus == old(complaintsByStatus) && complaintsByType == old(complaintsByType)
      ensures statusChartData == old(statusChartData) && typeChartData == old(typeChartData)
    {
      if complaintsByAgency == null {
        return;
      }
      SortByCountDescending(complaintsByAgency, AgencyCount);
      agencyChartData := AgencyChart(complaintsByAgency[..]);
    }

    /** `prepareTypeChartData()`: sorts the stored response itself by
      descending count and charts every entry; without a response nothing
      changes. */
    method PrepareTypeChartData()
      modifies this, complaintsByType
      ensures complaintsByType == old(complaintsByType)
      ensures complaintsByType != null ==>
                && NonIncreasing(complaintsByType[..], TypeCount)
                && multiset(complaintsByType[..]) == multiset(old(complaintsByType[..]))
                && typeChartData == TypeChart(complaintsByType[..])
      ensures complaintsByType == null ==> typeChartData == old(typeChartData)
      ensures loading == old(loading) && error == old(error) && issued == old(issued)
      ensures startDate == old(startDate) && endDate == old(endDate)
      ensures performanceStats == old(performanceStats) && resolutionTimeStats == old(resolutionTimeStats)
      ensures complaintsByStatus == old(complaintsByStatus) && complaintsByAgency == old(complaintsByAgency)
      ensures statusChartData == old(statusChartData) && agencyChartData == old(agencyChartData)
    {
      if complaintsByType == null {
        return;
      }
      SortByCountDescending(complaintsByType, TypeCount);
      typeChartData := TypeChart(complaintsByType[..]);
    }

    /** The success callback of the status load. */
    method OnStatusLoaded(data: seq<StatusData>)
      modifies this
      ensures complaintsByStatus == Some(data) && statusChartData == StatusChart(data)
      ensures loading == old(loading) && error == old(error) && issued == old(issued)
      ensures startDate == old(startDate) && endDate == old(endDate)
      ensures performanceStats == old(performanceStats) && resolutionTimeStats == old(resolutionTimeStats)
      ensures complaintsByAgency == old(complaintsByAgency) && complaintsByType == old(complaintsByType)
      ensures agencyChartData == old(agencyChartData) && typeChartData == old(typeChartData)
    {
      complaintsByStatus := Some(data);
      PrepareStatusChartData();
    }

    /** The success callback of the agency load: the response array is kept
      and sorted in place. */
    method OnAgencyLoaded(data: array<AgencyData>)
      modifies this, data
      ensures complaintsByAgency == data
      ensures NonIncreasing(data[..], AgencyCount) && multiset(data[..]) == multiset(old(data[..]))
      ensures agencyChartData == AgencyChart(data[..])
      ensures loading == old(loading) && error == old(error) && issued == old(issued)
      ensures startDate == old(startDate) && endDate == old(endDate)
      ensures performanceStats == old(performanceStats) && resolutionTimeStats == old(resolutionTimeStats)
      ensures complaintsByStatus == old(complaintsByStatus) && complaintsByType == old(complaintsByType)
      ensures statusChartData == old(statusChartData) && typeChartData == old(typeChartData)
    {
      complaintsByAgency := data;
      PrepareAgencyChartData();
    }

    /** The success callback of the type load: the response array is kept
      and sorted in place. */
    method OnTypeLoaded(data: array<TypeData>)
      modifies this, data
      ensures complaintsByType == data
      ensures NonIncreasing(data[..], TypeCount) && multiset(data[..]) == multiset(old(data[..]))
      ensures typeChartData == TypeChart(data[..])
      ensures loading == old(loading) && error == old(error) && issued == old(issued)
      ensures startDate == old(startDate) && endDate == old(endDate)
      ensures performanceStats == old(performanceStats) && resolutionTimeStats == old(resolutionTimeStats)
      ensures complaintsByStatus == old(complaintsByStatus) && complaintsByAgency == old(complaintsByAgency)
      ensures statusChartData == old(statusChartData) && agencyChartData == old(agencyChartData)
    {
      complaintsByType := data;
      PrepareTypeChartData();
    }

    /** The success callback of the resolution-time load. */
    method OnResolutionLoaded(stats: ResolutionTimeStats)
      modifies this
      ensures resolutionTimeStats == Some(stats)
      ensures loading == old(loading) && error == old(error) && issued == old(issued)
      ensures startDate == old(startDate) && endDate == old(endDate) && performanceStats == old(performanceStats)
      ensures complaintsByStatus == old(complaintsByStatus)
      ensures complaintsByAgency == old(complaintsByAgency) && complaintsByType == old(complaintsByType)
      ensures statusChartData == old(statusChartData) && agencyChartData == old(agencyChartData)
      ensures typeChartData == old(typeChartData)
    {
      resolutionTimeStats := Some(stats);
    }

    /** `getTotalStatusCount()`. */
    function TotalStatusCount(): (total: int)
      reads this
      ensures complaintsByStatus.Some? && statusChartData == StatusChart(complaintsByStatus.value) ==>
                total == CountSum(complaintsByStatus.value)
    {
      StatusTotalIsCountSumAt(statusChartData, complaintsByStatus);
      Total(statusChartData)
    }
  }

  /** `StatusTotalIsCountSum` for the chart a component holds. */
  lemma StatusTotalIsCountSumAt(chart: seq<ChartItem>, response: Option<seq<StatusData>>)
    ensures response.Some? && chart == StatusChart(response.value) ==> Total(chart) == CountSum(response.value)
  {
    if response.Some? {
      StatusTotalIsCountSum(response.value);
    }
  }
}
