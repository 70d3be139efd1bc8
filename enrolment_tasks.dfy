/** The enrolment sample pipeline: storing a sample, starting one validation
    per validator of its instruments, and summarising the validations into
    the sample status. */
module EnrolmentTasks {
  import opened Wrappers
  import opened Text
  import opened Collections
  import VerificationTasks

  /** create_sample for a learner whose informed-consent status is
      `icStatus` (None when the learner does not exist), given the ids of the
      instruments that exist. Unlike a verification request, an unknown
      learner leaves an error marker, and success leaves no marker. */
  function CreateSample(icStatus: Option<string>, path: string, instruments: seq<int>, existing: set<int>)
    : (r: VerificationTasks.Intake)
    ensures r.queued <==> r.rejected.None?
    ensures r.queued <==>
              icStatus.Some? && StartsWith(icStatus.value, "VALID") &&
              Distinct(instruments) && Members(instruments) <= existing
    ensures r.fileDeleted <==> icStatus.Some? && !StartsWith(icStatus.value, "VALID")
    ensures r.recordStatus.Some? <==> icStatus.Some? && StartsWith(icStatus.value, "VALID")
    ensures r.recordStatus.Some? && !r.queued ==> r.recordStatus == Some(2)
    ensures r.markers == if icStatus.None? || r.recordStatus == Some(2) then [path + ".error"] else []
  {
    StoredCountMatches(instruments, existing);
    if icStatus.None? then VerificationTasks.Intake(None, false, [path + ".error"], Some("Invalid Learner"), false)
    else if !StartsWith(icStatus.value, "VALID") then
      VerificationTasks.Intake(None, true, [], Some("Missing informed consent"), false)
    else if |instruments| != |Members(instruments) * existing| then
      VerificationTasks.Intake(Some(2), false, [path + ".error"], Some("Invalid Instruments"), false)
    else VerificationTasks.Intake(Some(0), false, [], None, true)
  }

  /** A provider of an instrument with the flags the validator query reads. */
  datatype Provider = Provider(id: int, enabled: bool, allowValidation: bool, validationActive: bool)

  datatype SampleInstrument = SampleInstrument(name: string, providers: seq<Provider>)

  predicate IsValidator(p: Provider)
  {
    p.enabled && p.allowValidation && p.validationActive
  }

  /** The validators of one instrument, in order. */
  function ValidatorsOf(ps: seq<Provider>): (r: seq<int>)
    ensures r == [] <==> forall k :: 0 <= k < |ps| ==> !IsValidator(ps[k])
  {
    if ps == [] then []
    else (if IsValidator(ps[0]) then [ps[0].id] else []) + ValidatorsOf(ps[1..])
  }

  /** The validators of all instruments, instrument by instrument. */
  function AllValidators(instruments: seq<SampleInstrument>): seq<int>
  {
    if instruments == [] then []
    else AllValidators(instruments[..|instruments| - 1]) + ValidatorsOf(instruments[|instruments| - 1].providers)
  }

  datatype ValidationStart =
    | MissingValidator(instrument: int, message: string)
    | Started(validators: seq<int>)

  /** validate_request: the first instrument without validators stops the
      sample (status 2, error marker) before any validation is created;
      otherwise one validation is created, and one task queued, per
      validator. */
  method ValidateRequest(instruments: seq<SampleInstrument>) returns (r: ValidationStart)
    ensures r.MissingValidator? ==>
              0 <= r.instrument < |instruments| &&
              ValidatorsOf(instruments[r.instrument].providers) == [] &&
              (forall i :: 0 <= i < r.instrument ==> ValidatorsOf(instruments[i].providers) != []) &&
              r.message == "There is no validation provider for instrument <" + instruments[r.instrument].name + ">"
    ensures r.Started? ==>
              (forall i :: 0 <= i < |instruments| ==> ValidatorsOf(instruments[i].providers) != []) &&
              r.validators == AllValidators(instruments)
  {
    var validators: seq<int> := [];
    var i := 0;
    while i < |instruments|
      invariant 0 <= i <= |instruments|
      invariant forall k :: 0 <= k < i ==> ValidatorsOf(instruments[k].providers) != []
      invariant validators == AllValidators(instruments[..i])
    {
      assert instruments[..i + 1][..i] == instruments[..i];
      var found := ValidatorsOf(instruments[i].providers);
      if |found| == 0 {
        return MissingValidator(i, "There is no validation provider for instrument <" + instruments[i].name + ">");
      }
      validators := validators + found;
      i := i + 1;
    }
    assert instruments[..i] == instruments;
    r := Started(validators);
  }

  const MAX_RETRIES := 5

  /** The countdown before the summary is retried while validations are
      pending. */
  function RetryCountdown(retries: nat): (r: int)
    ensures r >= 15
    ensures retries > 0 ==> r == RetryCountdown(retries - 1) + 90
  {
    15 + retries * 90
  }

  datatype ValidationSummary =
    | Retry(countdown: int)
    | Summarised(statuses: seq<int>, sampleStatus: int, marker: string, enrolQueued: bool)

  /** create_validation_summary over the statuses of the sample's
      validations, on the given retry. While validations are pending it is
      retried, up to five times; then every pending validation times out.
      The sample is valid iff no validation ends above 1. */
  method ValidationSummaryOf(statuses: seq<int>, retries: nat) returns (r: ValidationSummary)
    ensures r.Retry? <==> 0 in statuses && retries < MAX_RETRIES
    ensures r.Retry? ==> r.countdown == RetryCountdown(retries)
    ensures r.Summarised? ==>
              var timeout := 0 in statuses;
              |r.statuses| == |statuses| &&
              (forall k :: 0 <= k < |statuses| ==>
                 r.statuses[k] == if timeout && statuses[k] == 0 then 3 else statuses[k]) &&
              ((forall k :: 0 <= k < |statuses| ==> r.statuses[k] <= 1) <==> r.sampleStatus == 1) &&
              r.sampleStatus in {1, 2, 3} &&
              (r.sampleStatus == 3 <==> timeout) &&
              (r.enrolQueued <==> r.sampleStatus == 1) &&
              r.marker == (if r.sampleStatus == 1 then ".valid" else if r.sampleStatus == 3 then ".timeout" else ".error")
  {
    var timeout := false;
    if 0 in statuses {
      if retries < MAX_RETRIES {
        return Retry(RetryCountdown(retries));
      }
      timeout := true;
    }
    var updated: seq<int> := [];
    var valid := true;
    var i := 0;
    while i < |statuses|
      invariant 0 <= i <= |statuses|
      invariant |updated| == i
      invariant forall k :: 0 <= k < i ==> updated[k] == if timeout && statuses[k] == 0 then 3 else statuses[k]
      invariant valid <==> forall k :: 0 <= k < i ==> updated[k] <= 1
    {
      var s := statuses[i];
      if timeout && s == 0 {
        s := 3;
      }
      if s > 1 {
        valid := false;
      }
      updated := updated + [s];
      i := i + 1;
    }
    if timeout {
      var k :| 0 <= k < |statuses| && statuses[k] == 0;
      assert updated[k] == 3;
    }
    if valid {
      r := Summarised(updated, 1, ".valid", true);
    } else if timeout {
      r := Summarised(updated, 3, ".timeout", false);
    } else {
      r := Summarised(updated, 2, ".error", false);
    }
  }
}
