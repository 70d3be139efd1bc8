/** The verification request pipeline: storing a request, dispatching it to
    the providers of its instruments, and summarising provider results into
    the instrument result and the request status. */
module VerificationTasks {
  import opened Wrappers
  import opened Text
  import opened Collections

  /** RESULT_STATUS of request results and provider results. */
  function ResultStatusName(s: int): string
  {
    match s
    case 0 => "Pending"
    case 1 => "Processed"
    case 2 => "Error"
    case 3 => "Timeout"
    case 4 => "Missing Provider"
    case 5 => "Missing Enrolment"
    case 6 => "Processing"
    case 7 => "Waiting External Service"
    case _ => ""
  }

  /** REQUEST_STATUS of requests. */
  function RequestStatusName(s: int): string
  {
    match s
    case 0 => "Stored"
    case 1 => "Scheduled"
    case 2 => "Processing"
    case 3 => "Processed"
    case 4 => "Error"
    case 5 => "Timeout"
    case 6 => "Missing Provider"
    case _ => ""
  }

  /** What storing a request or sample did: the status of the record
      created (None when none was), whether the uploaded file was deleted,
      the marker files written next to it, the rejection reason, and whether
      the next task was queued. */
  datatype Intake = Intake(recordStatus: Option<int>, fileDeleted: bool, markers: seq<string>, rejected: Option<string>, queued: bool)

  /** create_request for a learner whose informed-consent status is
      `icStatus` (None when the learner does not exist), given the ids of
      the instruments that exist. */
  function CreateRequest(icStatus: Option<string>, path: string, instruments: seq<int>, existing: set<int>): (r: Intake)
    ensures r.queued <==> r.rejected.None?
    ensures r.queued <==>
              icStatus.Some? && StartsWith(icStatus.value, "VALID") &&
              Distinct(instruments) && Members(instruments) <= existing
    ensures r.fileDeleted <==> icStatus.Some? && !StartsWith(icStatus.value, "VALID")
    ensures r.recordStatus.Some? <==> icStatus.Some? && StartsWith(icStatus.value, "VALID")
    ensures r.recordStatus.Some? && !r.queued ==> r.recordStatus == Some(2) && r.markers == [path + ".error"]
    ensures r.queued ==> r.recordStatus == Some(0) && r.markers == [path + ".valid"]
    ensures r.recordStatus.None? ==> r.markers == []
  {
    StoredCountMatches(instruments, existing);
    if icStatus.None? then Intake(None, false, [], Some("Invalid Learner"), false)
    else if !StartsWith(icStatus.value, "VALID") then Intake(None, true, [], Some("Missing informed consent"), false)
    else if |instruments| != |Members(instruments) * existing| then
      Intake(Some(2), false, [path + ".error"], Some("Invalid Instruments"), false)
    else Intake(Some(0), false, [path + ".valid"], None, true)
  }

  /** An enabled provider of an instrument, with the learner's enrolment for
      it: None when there is none, otherwise its `can_analyse`. */
  datatype ProviderConf = ProviderConf(id: int, enrolment: Option<bool>)

  /** An instrument of the request with its enabled providers. */
  datatype InstrumentConf = InstrumentConf(id: int, requiresEnrolment: bool, providers: seq<ProviderConf>)

  /** The provider cannot analyse for want of a usable enrolment. */
  predicate Skipped(requiresEnrolment: bool, p: ProviderConf)
  {
    requiresEnrolment && (p.enrolment.None? || !p.enrolment.value)
  }

  /** The providers a verification task is launched for, in order. */
  function Launched(requiresEnrolment: bool, ps: seq<ProviderConf>): seq<int>
  {
    if ps == [] then []
    else
      Launched(requiresEnrolment, ps[..|ps| - 1]) +
        if Skipped(requiresEnrolment, ps[|ps| - 1]) then [] else [ps[|ps| - 1].id]
  }

  /** The status each provider result is left with: 5 (missing enrolment)
      when skipped, 0 (pending) otherwise. */
  function ProviderStatuses(requiresEnrolment: bool, ps: seq<ProviderConf>): seq<int>
  {
    if ps == [] then []
    else
      ProviderStatuses(requiresEnrolment, ps[..|ps| - 1]) +
        [if Skipped(requiresEnrolment, ps[|ps| - 1]) then 5 else 0]
  }

  /** One provider result per provider, missing enrolment exactly for the
      skipped ones, and a task for every other provider. */
  lemma {:induction false} ProviderOutcomes(requiresEnrolment: bool, ps: seq<ProviderConf>)
    ensures |ProviderStatuses(requiresEnrolment, ps)| == |ps|
    ensures forall k :: 0 <= k < |ps| ==>
              ProviderStatuses(requiresEnrolment, ps)[k] == if Skipped(requiresEnrolment, ps[k]) then 5 else 0
    ensures Launched(requiresEnrolment, ps) == [] <==> forall k :: 0 <= k < |ps| ==> Skipped(requiresEnrolment, ps[k])
  {
    if ps != [] {
      var init := ps[..|ps| - 1];
      ProviderOutcomes(requiresEnrolment, init);
      assert forall k :: 0 <= k < |init| ==> init[k] == ps[k];
    }
  }

  /** The status of the instrument's result: 4 (missing provider) without
      enabled providers, 5 (missing enrolment) when every provider is
      skipped, 0 (pending) otherwise. */
  function InstrumentStatus(inst: InstrumentConf): int
  {
    if inst.providers == [] then 4
    else if Launched(inst.requiresEnrolment, inst.providers) == [] then 5
    else 0
  }

  /** All tasks launched for the request, instrument by instrument. */
  function AllLaunched(instruments: seq<InstrumentConf>): seq<int>
  {
    if instruments == [] then []
    else
      var inst := instruments[|instruments| - 1];
      AllLaunched(instruments[..|instruments| - 1]) + Launched(inst.requiresEnrolment, inst.providers)
  }

  /** The request status written when no task is launched, as the source
      writes it: result-status codes stored in the request's status field. */
  function IdleRequestStatusAsWritten(statuses: seq<int>): int
  {
    if 4 in statuses then 4 else if 5 in statuses then 5 else 2
  }

  /** The request status the comments name when no task is launched: missing
      provider (6 on the request scale), otherwise an error. */
  function IdleRequestStatus(statuses: seq<int>): (r: int)
    ensures RequestStatusName(r) == (if 4 in statuses then "Missing Provider" else "Error")
  {
    if 4 in statuses then 6 else 4
  }

  /** With an instrument lacking providers, the status as written reads
      "Error" on the request scale, not the "Missing Provider" it is
      commented as; with one lacking enrolments it reads "Timeout"; and the
      remaining branch, commented as an error and reached by a request
      without instruments, reads "Processing". */
  lemma IdleStatusAsWrittenMisnamed(statuses: seq<int>)
    ensures 4 in statuses ==>
              ResultStatusName(4) == "Missing Provider" &&
              RequestStatusName(IdleRequestStatusAsWritten(statuses)) == "Error"
    ensures 4 !in statuses && 5 in statuses ==>
              ResultStatusName(5) == "Missing Enrolment" &&
              RequestStatusName(IdleRequestStatusAsWritten(statuses)) == "Timeout"
    ensures 4 !in statuses && 5 !in statuses ==>
              RequestStatusName(IdleRequestStatusAsWritten(statuses)) == "Processing" &&
              RequestStatusName(IdleRequestStatus(statuses)) == "Error"
  {
  }

  /** The provider stage of verify_request. */
  method LaunchProviders(inst: InstrumentConf) returns (statuses: seq<int>, tasks: seq<int>)
    ensures statuses == ProviderStatuses(inst.requiresEnrolment, inst.providers)
    ensures tasks == Launched(inst.requiresEnrolment, inst.providers)
  {
    statuses, tasks := [], [];
    var ps := inst.providers;
    var j := 0;
    while j < |ps|
      invariant 0 <= j <= |ps|
      invariant statuses == ProviderStatuses(inst.requiresEnrolment, ps[..j])
      invariant tasks == Launched(inst.requiresEnrolment, ps[..j])
    {
      assert ps[..j + 1][..j] == ps[..j];
      if inst.requiresEnrolment && (ps[j].enrolment.None? || !ps[j].enrolment.value) {
        statuses := statuses + [5];
      } else {
        statuses := statuses + [0];
        tasks := tasks + [ps[j].id];
      }
      j := j + 1;
    }
    assert ps[..j] == ps;
  }

  datatype Verification = Verification(
    instrumentStatus: seq<int>, providerStatus: seq<seq<int>>, tasks: seq<int>, requestStatus: Option<int>)

  /** verify_request: one result per instrument and per enabled provider;
      the request status is written only when no task is launched. */
  method VerifyRequest(instruments: seq<InstrumentConf>) returns (r: Verification)
    ensures |r.instrumentStatus| == |instruments| && |r.providerStatus| == |instruments|
    ensures forall i :: 0 <= i < |instruments| ==>
              r.instrumentStatus[i] == InstrumentStatus(instruments[i]) &&
              r.providerStatus[i] == ProviderStatuses(instruments[i].requiresEnrolment, instruments[i].providers)
    ensures r.tasks == AllLaunched(instruments)
    ensures r.requestStatus == if r.tasks == [] then Some(IdleRequestStatus(r.instrumentStatus)) else None
  {
    var instStatus: seq<int> := [];
    var provStatus: seq<seq<int>> := [];
    var tasks: seq<int> := [];
    var i := 0;
    while i < |instruments|
      invariant 0 <= i <= |instruments|
      invariant |instStatus| == i && |provStatus| == i
      invariant forall k :: 0 <= k < i ==>
                  instStatus[k] == InstrumentStatus(instruments[k]) &&
                  provStatus[k] == ProviderStatuses(instruments[k].requiresEnrolment, instruments[k].providers)
      invariant tasks == AllLaunched(instruments[..i])
    {
      assert instruments[..i + 1][..i] == instruments[..i];
      var inst := instruments[i];
      var status := 0;
      var ps, group := [], [];
      if |inst.providers| == 0 {
        status := 4;
      } else {
        ps, group := LaunchProviders(inst);
        if |group| == 0 {
          status := 5;
        }
      }
      instStatus := instStatus + [status];
      provStatus := provStatus + [ps];
      tasks := tasks + group;
      i := i + 1;
    }
    assert instruments[..i] == instruments;
    var requestStatus := None;
    if |tasks| == 0 {
      requestStatus := Some(if 4 in instStatus then 6 else 4);
    }
    r := Verification(instStatus, provStatus, tasks, requestStatus);
  }

  /** No task is launched iff every instrument either lacks enabled
      providers or has every provider skipped. */
  lemma {:induction false} NoTasksIffAllBlocked(instruments: seq<InstrumentConf>)
    ensures AllLaunched(instruments) == [] <==>
              forall i :: 0 <= i < |instruments| ==> InstrumentStatus(instruments[i]) in {4, 5}
  {
    if instruments != [] {
      var init := instruments[..|instruments| - 1];
      NoTasksIffAllBlocked(init);
      assert forall i :: 0 <= i < |init| ==> init[i] == instruments[i];
      var inst := instruments[|instruments| - 1];
      if inst.providers == [] {
        assert Launched(inst.requiresEnrolment, inst.providers) == [];
      }
    }
  }

  /** A provider result as the summary reads it. */
  datatype ProviderResult = ProviderResult(status: int, result: real, code: int)

  function Statuses(rs: seq<ProviderResult>): (r: seq<int>)
    ensures |r| == |rs| && forall k :: 0 <= k < |rs| ==> r[k] == rs[k].status
  {
    if rs == [] then [] else [rs[0].status] + Statuses(rs[1..])
  }

  /** The instrument result status: pending (0) while any provider result
      is pending, otherwise the highest provider status. */
  function SummaryStatus(statuses: seq<int>): (r: int)
    requires |statuses| > 0
    requires forall k :: 0 <= k < |statuses| ==> statuses[k] >= 0
    ensures r == 0 <==> 0 in statuses
    ensures r != 0 ==> r in statuses && forall k :: 0 <= k < |statuses| ==> statuses[k] <= r
  {
    if SeqMin(statuses) > 0 then SeqMax(statuses) else 0
  }

  /** The highest result among the processed (status 1) provider results;
      None when no result is processed. */
  function ProcessedMaxResult(rs: seq<ProviderResult>): (r: Option<real>)
    ensures r.None? <==> forall k :: 0 <= k < |rs| ==> rs[k].status != 1
    ensures r.Some? ==>
              (exists k :: 0 <= k < |rs| && rs[k].status == 1 && rs[k].result == r.value) &&
              (forall k :: 0 <= k < |rs| && rs[k].status == 1 ==> rs[k].result <= r.value)
  {
    if rs == [] then None
    else
      var rest := ProcessedMaxResult(rs[1..]);
      if rs[0].status != 1 then rest
      else if rest.None? || rs[0].result >= rest.value then Some(rs[0].result)
      else rest
  }

  /** The highest code among the processed provider results. */
  function ProcessedMaxCode(rs: seq<ProviderResult>): (r: Option<int>)
    ensures r.None? <==> forall k :: 0 <= k < |rs| ==> rs[k].status != 1
    ensures r.Some? ==>
              (exists k :: 0 <= k < |rs| && rs[k].status == 1 && rs[k].code == r.value) &&
              (forall k :: 0 <= k < |rs| && rs[k].status == 1 ==> rs[k].code <= r.value)
  {
    if rs == [] then None
    else
      var rest := ProcessedMaxCode(rs[1..]);
      if rs[0].status != 1 then rest
      else if rest.None? || rs[0].code >= rest.value then Some(rs[0].code)
      else rest
  }

  /** The request status once an instrument result is final, from the
      lowest and highest status over all the request's provider results. */
  function RequestStatusAfter(all: seq<int>): (r: int)
    requires |all| > 0
    requires forall k :: 0 <= k < |all| ==> 0 <= all[k] <= 7
    ensures 1 <= r <= 6
    ensures r == 1 <==> forall k :: 0 <= k < |all| ==> all[k] == 0
    ensures r == 2 <==> 0 in all && exists k :: 0 <= k < |all| && all[k] > 0
    ensures r == 3 <==> forall k :: 0 <= k < |all| ==> all[k] == 1
    ensures (forall k :: 0 <= k < |all| ==> all[k] > 0) ==>
              forall m :: m in all && (forall k :: 0 <= k < |all| ==> all[k] <= m) ==>
                r == (if m < 5 then m + 2 else 4)
  {
    var lo := SeqMin(all);
    var hi := SeqMax(all);
    if lo == 0 then (if hi > 0 then 2 else 1)
    else if hi < 5 then hi + 2
    else 4
  }

  datatype Summary = Summary(status: int, result: Option<real>, code: Option<int>, requestStatus: Option<int>, reportQueued: bool)

  /** create_verification_summary for one instrument: `mine` are the
      instrument's provider results (at least one exists when a provider
      reports), `all` the statuses of every provider result of the
      request. The request and the report are updated only once the
      instrument result is no longer pending. */
  function VerificationSummary(mine: seq<ProviderResult>, all: seq<int>): (r: Summary)
    requires |mine| > 0 && |all| > 0
    requires forall k :: 0 <= k < |mine| ==> mine[k].status >= 0
    requires forall k :: 0 <= k < |all| ==> 0 <= all[k] <= 7
    ensures r.status == SummaryStatus(Statuses(mine))
    ensures r.result == ProcessedMaxResult(mine) && r.code == ProcessedMaxCode(mine)
    ensures r.requestStatus.Some? <==> r.status > 0
    ensures r.reportQueued <==> r.status > 0
    ensures r.requestStatus.Some? ==> r.requestStatus.value == RequestStatusAfter(all)
  {
    var status := SummaryStatus(Statuses(mine));
    Summary(status, ProcessedMaxResult(mine), ProcessedMaxCode(mine),
            if status > 0 then Some(RequestStatusAfter(all)) else None, status > 0)
  }
}
