/** The complaints list page: loading the list and the display lookups for
    a complaint's status badge and type label. */
module Complaints {
  import opened Wrappers
  import opened Browser
  import opened Models

  const FallbackStatusClass := "bg-gray-100 text-gray-800"

  const StatusClasses: map<string, string> := map[
    "pending" := "bg-yellow-100 text-yellow-800",
    "in_progress" := "bg-blue-100 text-blue-800",
    "resolved" := "bg-green-100 text-green-800",
    "rejected" := "bg-red-100 text-red-800"]

  /** The badge classes for a status code: one of four colours for the
      codes in the table, grey for every other code. */
  function StatusClass(status: string): (c: string)
    ensures status in StatusClasses ==> c == StatusClasses[status]
    ensures status !in StatusClasses ==> c == FallbackStatusClass
  {
    if status in StatusClasses && StatusClasses[status] != "" then StatusClasses[status] else FallbackStatusClass
  }

  /** Of the five complaint statuses exactly `awaiting_info` falls back to
      grey, and the other four get four different classes. */
  lemma StatusClassOfEnum(s: ComplaintStatus, t: ComplaintStatus)
    ensures StatusClass(s.Code()) == FallbackStatusClass <==> s == AwaitingInfo
    ensures s != t && s != AwaitingInfo && t != AwaitingInfo ==> StatusClass(s.Code()) != StatusClass(t.Code())
  {
  }

  const TypeLabels: map<string, string> := map[
    "environmental" := "Environmental",
    "public_health" := "Public Health",
    "transportation" := "Transportation",
    "water_and_sanitation" := "Water & Sanitation",
    "other" := "Other"]

  /** The display label of a type code; an unknown code is shown as it is. */
  function TypeLabel(code: string): (shown: string)
    ensures code in TypeLabels ==> shown == TypeLabels[code]
    ensures code !in TypeLabels ==> shown == code
  {
    if code in TypeLabels && TypeLabels[code] != "" then TypeLabels[code] else code
  }

  /** Every complaint type has its own label, different from its code. */
  lemma TypeLabelOfEnum(t: ComplaintType, u: ComplaintType)
    ensures TypeLabel(t.Code()) != t.Code()
    ensures t != u ==> TypeLabel(t.Code()) != TypeLabel(u.Code())
  {
  }

  datatype ComplaintsRequest = GetComplaints

  class ComplaintsComponent {
    var complaints: seq<Complaint>
    var loading: bool
    var error: string
    var issued: seq<ComplaintsRequest>

    constructor ()
      ensures complaints == [] && loading && error == "" && issued == []
    {
      complaints := [];
      loading := true;
      error := "";
      issued := [];
    }

    /** `loadComplaints()` up to the request: sets loading, clears the error. */
    method LoadComplaints()
      modifies this
      ensures loading && error == ""
      ensures issued == old(issued) + [GetComplaints]
      ensures complaints == old(complaints)
    {
      loading := true;
      error := "";
      issued := issued + [GetComplaints];
    }

    /** The `next`/`error` callbacks of `loadComplaints()`: a response replaces
      the list wholesale; an error keeps it and shows the server's message or
      the fallback text. Loading ends either way. */
    method OnComplaintsLoaded(outcome: Result<seq<Complaint>, HttpError>)
      modifies this
      ensures !loading && issued == old(issued)
      ensures outcome.Success? ==> complaints == outcome.value && error == old(error)
      ensures outcome.Failure? ==>
                && complaints == old(complaints)
                && error == FirstTruthy([outcome.error.BodyMessage()], "Failed to load complaints")
    {
      match outcome
      case Success(data) =>
        complaints := data;
        loading := false;
      case Failure(err) =>
        error := FirstTruthy([err.BodyMessage()], "Failed to load complaints");
        loading := false;
    }
  }
}
