/** The analytics REST service: its auth headers and the date-range
    parameters every analytics call sends. */
module GeneralManagementService {
  import opened Wrappers
  import opened Browser
  import opened Http
  import opened Models

  /** `getAuthHeaders()`: outside the browser there is no storage and the
      token is `null`. */
  function AuthHeaders(isBrowser: bool, items: map<string, string>): (h: map<string, string>)
    ensures h.Keys == {"Authorization", "Content-Type"}
    ensures h["Content-Type"] == "application/json"
    ensures isBrowser ==> h["Authorization"] == BearerValue(StoredToken(items))
    ensures !isBrowser ==> h["Authorization"] == "Bearer null"
  {
    var token := if isBrowser then StoredToken(items) else None;
    map["Authorization" := BearerValue(token), "Content-Type" := "application/json"]
  }

  /** The guarded `set` calls of `buildParams`: each date only when it is a
      non-empty string. */
  function BuildSteps(query: Option<AnalyticsQuery>): (steps: seq<ParamStep>)
    ensures DistinctStepKeys(steps)
  {
    var q := query.GetOr(AnalyticsQuery(None, None));
    [ParamStep(query.Some? && Truthy(q.startDate), "startDate", q.startDate.GetOr("")),
     ParamStep(query.Some? && Truthy(q.endDate), "endDate", q.endDate.GetOr(""))]
  }

  /** `buildParams(queryParams)`: nothing without a query, and never a key
      other than the two dates. */
  function BuildParams(query: Option<AnalyticsQuery>): (p: Params)
    ensures query.None? ==> p == []
    ensures forall i :: 0 <= i < |p| ==> p[i].0 == "startDate" || p[i].0 == "endDate"
  {
    var steps := BuildSteps(query);
    var p := ApplySteps([], steps);
    assert forall i :: 0 <= i < |p| ==> p[i].0 == "startDate" || p[i].0 == "endDate" by {
      forall i | 0 <= i < |p| ensures p[i].0 == "startDate" || p[i].0 == "endDate" {
        var key := p[i].0;
        assert Keys(p)[i] == key;
        ApplyStepsGet([], steps, key);
        StepValueNamesKey(steps, key);
      }
    }
    p
  }

  /** Each date is sent only as a non-empty string, no other key is ever
      sent, and an absent query sends nothing. */
  lemma BuildParamsLookup(query: Option<AnalyticsQuery>, key: string)
    ensures query.None? ==> BuildParams(query) == []
    ensures Get(BuildParams(query), key) ==
              if key == "startDate" && query.Some? && Truthy(query.value.startDate) then query.value.startDate
              else if key == "endDate" && query.Some? && Truthy(query.value.endDate) then query.value.endDate
              else None
  {
    var steps := BuildSteps(query);
    ApplyStepsGet([], steps, key);
    assert steps == [steps[0]] + [steps[1]] && [steps[1]] == [steps[1]] + [];
    StepValueCons(steps[0], [steps[1]], key);
    StepValueCons(steps[1], [], key);
  }
}
