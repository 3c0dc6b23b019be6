/** The agencies page: listing agencies and adding one by name. */
module Agencies {
  import opened Wrappers
  import opened Text
  import opened Browser
  import opened Models

  datatype AgencyRequest = ListAgencies | CreateAgency(name: string)

  const NameRequired := "Agency name is required"

  /** The name `addAgency` sends, or `None` when the input is blank. */
  function SubmittedName(input: string): (name: Option<string>)
    ensures name.None? <==> AllWhitespace(input)
    ensures name.Some? ==> && name.value != []
                           && !IsWhitespace(name.value[0]) && !IsWhitespace(name.value[|name.value| - 1])
                           && exists i, j :: && 0 <= i <= j <= |input| && name.value == input[i..j]
                                            && AllWhitespace(input[..i]) && AllWhitespace(input[j..])
  {
    TrimEmptyIff(input);
    TrimIsInfix(input);
    var t := Trim(input);
    if t == [] then None else Some(t)
  }

  class AgencyComponent {
    var agencies: seq<Agency>
    var loading: bool
    var error: string
    var showAddForm: bool
    var newAgencyName: string
    var isSubmitting: bool
    var issued: seq<AgencyRequest>

    constructor ()
      ensures agencies == [] && loading && error == "" && !showAddForm
      ensures newAgencyName == "" && !isSubmitting && issued == []
    {
      agencies := [];
      loading := true;
      error := "";
      showAddForm := false;
      newAgencyName := "";
      isSubmitting := false;
      issued := [];
    }

    /** `loadAgencies()` up to the request. */
    method LoadAgencies()
      modifies this
      ensures loading && error == ""
      ensures issued == old(issued) + [ListAgencies]
      ensures agencies == old(agencies) && showAddForm == old(showAddForm)
      ensures newAgencyName == old(newAgencyName) && isSubmitting == old(isSubmitting)
    {
      loading := true;
      error := "";
      issued := issued + [ListAgencies];
    }

    /** The callbacks of `loadAgencies()`: the response replaces the list
      wholesale; an error leaves it and shows a message. */
    method OnAgenciesLoaded(outcome: Result<seq<Agency>, HttpError>)
      modifies this
      ensures !loading && issued == old(issued)
      ensures showAddForm == old(showAddForm) && newAgencyName == old(newAgencyName)
      ensures isSubmitting == old(isSubmitting)
      ensures outcome.Success? ==> agencies == outcome.value && error == old(error)
      ensures outcome.Failure? ==>
                && agencies == old(agencies)
                && error == FirstTruthy([outcome.error.BodyMessage()], "Failed to load agencies")
    {
      match outcome
      case Success(data) =>
        agencies := data;
        loading := false;
      case Failure(err) =>
        error := FirstTruthy([err.BodyMessage()], "Failed to load agencies");
        loading := false;
    }

    /** Flips the form; closing it clears the name and the error, opening it
      leaves them as they were. */
    method ToggleAddForm()
      modifies this
      ensures showAddForm == !old(showAddForm)
      ensures !showAddForm ==> newAgencyName == "" && error == ""
      ensures showAddForm ==> newAgencyName == old(newAgencyName) && error == old(error)
      ensures agencies == old(agencies) && issued == old(issued)
      ensures isSubmitting == old(isSubmitting) && loading == old(loading)
    {
      showAddForm := !showAddForm;
      if !showAddForm {
        newAgencyName := "";
        error := "";
      }
    }

    /** `addAgency()` up to the request: a blank name is refused with no
      request; otherwise the trimmed name is sent. */
    method AddAgency()
      modifies this
      ensures AllWhitespace(old(newAgencyName)) ==>
                && error == NameRequired && issued == old(issued)
                && isSubmitting == old(isSubmitting)
      ensures !AllWhitespace(old(newAgencyName)) ==>
                && isSubmitting && error == ""
                && issued == old(issued) + [CreateAgency(Trim(old(newAgencyName)))]
      ensures agencies == old(agencies) && newAgencyName == old(newAgencyName)
      ensures showAddForm == old(showAddForm) && loading == old(loading)
    {
      var name := SubmittedName(newAgencyName);
      if name.None? {
        error := NameRequired;
        return;
      }
      isSubmitting := true;
      error := "";
      issued := issued + [CreateAgency(name.value)];
    }

    /** The callbacks of `create`: a created agency is appended after the
      existing ones and the form closes; an error keeps the list and shows
      a message. */
    method OnAgencyCreated(outcome: Result<Agency, HttpError>)
      modifies this
      ensures !isSubmitting && issued == old(issued) && loading == old(loading)
      ensures outcome.Success? ==>
                && agencies == old(agencies) + [outcome.value]
                && newAgencyName == "" && !showAddForm && error == old(error)
      ensures outcome.Failure? ==>
                && agencies == old(agencies)
                && newAgencyName == old(newAgencyName) && showAddForm == old(showAddForm)
                && error == FirstTruthy([outcome.error.BodyMessage()], "Failed to create agency")
    {
      match outcome
      case Success(created) =>
        agencies := agencies + [created];
        newAgencyName := "";
        showAddForm := false;
        isSubmitting := false;
      case Failure(err) =>
        error := FirstTruthy([err.BodyMessage()], "Failed to create agency");
        isSubmitting := false;
    }
  }
}
