/** The status a provider posts for one of its verification results or
    enrolment sample validations: the posted value is checked for presence,
    integer form and range before the record is looked up and changed. */
module ProviderStatus {
  import opened Wrappers
  import opened Text

  /** The checks both views share: the status must be present, an integer,
      and within 0..`top`. */
  function CheckedStatus(posted: Option<string>, top: int): (r: Result<int>)
    ensures posted.None? ==> r == Err("status field is required")
    ensures posted.Some? && ParseInt(posted.value).None? ==> r == Err("status must be an integer")
    ensures posted.Some? && ParseInt(posted.value).Some? ==>
              var v := ParseInt(posted.value).value;
              if 0 <= v <= top then r == Ok(v) else r == Err("status value out of range")
  {
    if posted.None? then Err("status field is required")
    else
      var v := ParseInt(posted.value);
      if v.None? then Err("status must be an integer")
      else if v.value < 0 || v.value > top then Err("status value out of range")
      else Ok(v.value)
  }

  /** Every accepted value was posted as that integer. */
  lemma CheckedStatusAcceptsPrinted(v: int, top: int)
    ensures CheckedStatus(Some(IntToString(v)), top) == (if 0 <= v <= top then Ok(v) else Err("status value out of range"))
  {
    IntToStringParses(v);
  }

  /** A verification request result a provider may update. */
  class RequestProviderResult {
    var status: int

    constructor (status: int)
      ensures this.status == status
    {
      this.status := status;
    }

    /** ProviderVerificationRequestResultViewSet.status: 0..7 are accepted;
        a missing result is not found; a processed result (status 1) is
        never changed; otherwise only the status changes. */
    method ChangeStatus(posted: Option<string>, found: bool) returns (r: Result<int>)
      modifies this
      ensures r == ResultStatusChange(posted, found, old(status))
      ensures r.Ok? ==> status == r.value
      ensures r.Err? ==> status == old(status)
    {
      var checked := CheckedStatus(posted, 7);
      if checked.Err? {
        return checked;
      }
      if !found {
        return Err("Not found");
      }
      if status == 1 {
        return Err("Cannot change processed results status.");
      }
      status := checked.value;
      r := Ok(status);
    }
  }

  /** The outcome of posting a status to a verification result whose current
      status is `current`. */
  function ResultStatusChange(posted: Option<string>, found: bool, current: int): (r: Result<int>)
    ensures CheckedStatus(posted, 7).Err? ==> r == CheckedStatus(posted, 7)
    ensures CheckedStatus(posted, 7).Ok? && !found ==> r == Err("Not found")
    ensures CheckedStatus(posted, 7).Ok? && found && current == 1 ==> r == Err("Cannot change processed results status.")
    ensures r.Ok? <==> CheckedStatus(posted, 7).Ok? && found && current != 1
    ensures r.Ok? ==> 0 <= r.value <= 7
  {
    var checked := CheckedStatus(posted, 7);
    if checked.Err? then checked
    else if !found then Err("Not found")
    else if current == 1 then Err("Cannot change processed results status.")
    else checked
  }

  /** Once processed, a verification result keeps its status whatever a
      provider posts. */
  lemma ProcessedResultIsFinal(posted: Option<string>, found: bool)
    ensures ResultStatusChange(posted, found, 1).Err?
  {
  }

  /** An enrolment sample validation a provider may update. */
  class SampleValidation {
    var status: int

    constructor (status: int)
      ensures this.status == status
    {
      this.status := status;
    }

    /** ProviderEnrolmentSampleValidationViewSet.status: 0..4 are accepted
        and stored whatever the current status is. */
    method ChangeStatus(posted: Option<string>, found: bool) returns (r: Result<int>)
      modifies this
      ensures r == ValidationStatusChange(posted, found)
      ensures r.Ok? ==> status == r.value
      ensures r.Err? ==> status == old(status)
    {
      var checked := CheckedStatus(posted, 4);
      if checked.Err? {
        return checked;
      }
      if !found {
        return Err("Not found");
      }
      status := checked.value;
      r := Ok(status);
    }
  }

  /** The outcome of posting a status to a sample validation: it does not
      depend on the current status. */
  function ValidationStatusChange(posted: Option<string>, found: bool): (r: Result<int>)
    ensures CheckedStatus(posted, 4).Err? ==> r == CheckedStatus(posted, 4)
    ensures r.Ok? <==> CheckedStatus(posted, 4).Ok? && found
    ensures r.Ok? ==> 0 <= r.value <= 4 && r == CheckedStatus(posted, 4)
  {
    var checked := CheckedStatus(posted, 4);
    if checked.Err? then checked
    else if !found then Err("Not found")
    else checked
  }

  /** Statuses 5..7 are accepted for verification results and refused for
      validations. */
  lemma RangesDiffer(v: int)
    requires 5 <= v <= 7
    ensures ResultStatusChange(Some(IntToString(v)), true, 0) == Ok(v)
    ensures ValidationStatusChange(Some(IntToString(v)), true) == Err("status value out of range")
  {
    CheckedStatusAcceptsPrinted(v, 7);
    CheckedStatusAcceptsPrinted(v, 4);
  }
}
