/** Learners: the informed-consent accept/reject action, the learner's
    consent status, the SEND (special educational needs) summary and the
    missing-enrolment check for an activity. */
module Learners {
  import opened Wrappers
  import opened Text
  import opened InformedConsent
  import opened Collections

  /** The body of an accept request: the `version` field, None when absent
      or null. */
  datatype IcRequest = Accept(version: Option<string>) | Reject

  datatype IcResponse =
    | Done
    | PermissionDenied
    | BadRequest(reason: string)
    | NotFound(reason: string)

  /** The serializer's `version` CharField: surrounding whitespace is trimmed
      and a blank value is refused. */
  function RequestedVersion(version: Option<string>): (r: Option<string>)
    ensures r.Some? <==> version.Some? && !IsBlank(version.value)
    ensures r.Some? ==> r.value == Strip(version.value)
  {
    if version.Some? && !IsBlank(version.value) then Some(Strip(version.value)) else None
  }

  /** The consent of the institution with exactly this version string
      (versions are unique per institution). */
  function FindConsent(consents: seq<Consent>, version: string): (r: Option<Consent>)
    ensures r.Some? ==> r.value in consents && r.value.version == version
    ensures r.None? ==> forall c :: c in consents ==> c.version != version
  {
    if consents == [] then None
    else if consents[0].version == version then Some(consents[0])
    else FindConsent(consents[1..], version)
  }

  const IcStatuses: set<string> :=
    {"VALID_EXTERNAL", "NOT_VALID_REJECTED", "NOT_VALID_MISSING", "NOT_VALID_YET", "VALID", "VALID_NEED_UPDATE", "NOT_VALID"}

  /** The statuses for which `ic_status.startswith('VALID')` holds, the test
      the request tasks apply. */
  lemma ValidPrefix(r: string)
    requires r in IcStatuses
    ensures StartsWith(r, "VALID") <==> r in {"VALID_EXTERNAL", "VALID", "VALID_NEED_UPDATE"}
  {
    if r in {"NOT_VALID_REJECTED", "NOT_VALID_MISSING", "NOT_VALID_YET", "NOT_VALID"} {
      assert r[0] == 'N';
    } else {
      assert r[..5] == "VALID";
    }
  }

  class Learner {
    const id: int
    /** The learner's institution handles informed consent externally. */
    const externalIC: bool
    var consent: Option<Consent>
    var consentAccepted: Option<int>
    var consentRejected: Option<int>

    constructor (id: int, externalIC: bool)
      ensures this.id == id && this.externalIC == externalIC
      ensures consent == None && consentAccepted == None && consentRejected == None
    {
      this.id := id;
      this.externalIC := externalIC;
      consent, consentAccepted, consentRejected := None, None, None;
    }

    /** Learner.ic_status, read against the institution's consents. */
    function IcStatus(consents: seq<Consent>, now: int): (r: string)
      reads this
      requires consent.Some? ==> Readable(consents) && consent.value in consents
      ensures externalIC ==> r == "VALID_EXTERNAL"
      ensures !externalIC && consentRejected.Some? ==> r == "NOT_VALID_REJECTED"
      ensures !externalIC && consentRejected.None? && consent.None? ==> r == "NOT_VALID_MISSING"
      ensures r in IcStatuses
      ensures !externalIC && consentRejected.None? && consent.Some? ==> r != "NOT_VALID_MISSING" && r != "NOT_VALID_REJECTED"
    {
      if externalIC then "VALID_EXTERNAL"
      else if consentRejected.Some? then "NOT_VALID_REJECTED"
      else if consent.None? then "NOT_VALID_MISSING"
      else Status(consent.value, consents, now)
    }

    /** The `ic` action of the learner view: only the learner may call it;
        accepting sets the consent unless it would not move to a newer
        version of a consent still in place; rejecting marks the current
        consent as rejected. Every refusal leaves the learner unchanged. */
    method Ic(userId: int, request: IcRequest, consents: seq<Consent>, now: int) returns (resp: IcResponse)
      requires Readable(consents)
      requires consent.Some? ==> consent.value in consents
      modifies this
      ensures resp != Done ==> unchanged(this)
      ensures userId != id ==> resp == PermissionDenied
      ensures userId == id && request.Accept? ==>
                var v := RequestedVersion(request.version);
                var found := if v.Some? then FindConsent(consents, v.value) else None;
                (resp == Done <==>
                   found.Some? &&
                   !(old(consent).Some? && old(consentRejected).None? &&
                     IsNewerVersions(old(consent).value.version, found.value.version) != Some(true))) &&
                (resp == Done ==>
                   consent == found && consentAccepted == Some(now) && consentRejected == None)
      ensures userId == id && request.Reject? ==>
                (resp == Done <==> old(consent).Some? && old(consentRejected).None?) &&
                (resp == Done ==>
                   consent == old(consent) && consentAccepted == old(consentAccepted) &&
                   consentRejected == Some(now))
      ensures consent.Some? ==> consent.value in consents
      ensures resp == Done && request.Accept? ==> consent.Some? && consentRejected.None?
      ensures resp == Done && request.Accept? && !externalIC ==>
                IcStatus(consents, now) == Status(consent.value, consents, now)
      ensures resp == Done && request.Reject? ==>
                IcStatus(consents, now) in {"VALID_EXTERNAL", "NOT_VALID_REJECTED"}
    {
      if userId != id {
        return PermissionDenied;
      }
      match request {
        case Accept(version) =>
          resp := Accept(version, consents, now);
        case Reject =>
          resp := Reject(now);
      }
    }

    /** Accepting: the requested version must name one of the institution's
        consents, and a consent still in place may only be replaced by a
        newer version. */
    method Accept(version: Option<string>, consents: seq<Consent>, now: int) returns (resp: IcResponse)
      requires consent.Some? ==> consent.value in consents
      modifies this
      ensures resp != Done ==> unchanged(this)
      ensures var v := RequestedVersion(version);
              var found := if v.Some? then FindConsent(consents, v.value) else None;
              (resp == Done <==>
                 found.Some? &&
                 !(old(consent).Some? && old(consentRejected).None? &&
                   IsNewerVersions(old(consent).value.version, found.value.version) != Some(true))) &&
              (resp == Done ==>
                 consent == found && consentAccepted == Some(now) && consentRejected == None)
      ensures consent.Some? ==> consent.value in consents
    {
      var v := RequestedVersion(version);
      if v.None? {
        return BadRequest("version: This field is required.");
      }
      var found := FindConsent(consents, v.value);
      if found.None? {
        return NotFound("Informed Consent not found");
      }
      if consent.Some? && consentRejected.None? &&
         IsNewerVersions(consent.value.version, found.value.version) != Some(true) {
        return BadRequest("Cannot downgrade consent");
      }
      consent := found;
      consentAccepted := Some(now);
      consentRejected := None;
      resp := Done;
    }

    /** Rejecting: only a consent in place and not yet rejected can be
        rejected; only the rejection date changes. */
    method Reject(now: int) returns (resp: IcResponse)
      modifies this
      ensures resp != Done ==> unchanged(this)
      ensures resp == Done <==> old(consent).Some? && old(consentRejected).None?
      ensures resp == Done ==>
                consent == old(consent) && consentAccepted == old(consentAccepted) &&
                consentRejected == Some(now)
    {
      if consent.Some? && consentRejected.None? {
        consentRejected := Some(now);
        resp := Done;
      } else {
        resp := NotFound("No Informed Consent to reject");
      }
    }
  }

  /** A SEND category linked to the learner, with the lists its data holds
      (None where the key is absent). */
  datatype SendCategory = SendCategory(expiresAt: Option<int>, disabledInstruments: Option<seq<int>>, enabledOptions: Option<seq<string>>)

  datatype SendInfo = SendInfo(isSend: bool, enabledOptions: set<string>, disabledInstruments: set<int>)

  predicate Unexpired(c: SendCategory, now: int)
  {
    c.expiresAt.None? || c.expiresAt.value >= now
  }

  /** The instruments disabled by the unexpired categories. */
  function DisabledBy(cats: seq<SendCategory>, now: int): set<int>
  {
    if cats == [] then {}
    else
      var c := cats[|cats| - 1];
      DisabledBy(cats[..|cats| - 1], now) +
        if Unexpired(c, now) && c.disabledInstruments.Some? then set x | x in c.disabledInstruments.value else {}
  }

  /** The options enabled by the unexpired categories. */
  function EnabledBy(cats: seq<SendCategory>, now: int): set<string>
  {
    if cats == [] then {}
    else
      var c := cats[|cats| - 1];
      EnabledBy(cats[..|cats| - 1], now) +
        if Unexpired(c, now) && c.enabledOptions.Some? then set x | x in c.enabledOptions.value else {}
  }

  /** An instrument is disabled iff some unexpired category lists it. */
  lemma {:induction false} DisabledByIsUnion(cats: seq<SendCategory>, now: int, x: int)
    ensures x in DisabledBy(cats, now) <==>
              exists i :: 0 <= i < |cats| && Unexpired(cats[i], now) &&
                          cats[i].disabledInstruments.Some? && x in cats[i].disabledInstruments.value
  {
    if cats != [] {
      var init := cats[..|cats| - 1];
      DisabledByIsUnion(init, now, x);
      assert forall i :: 0 <= i < |init| ==> init[i] == cats[i];
    }
  }

  /** get_learner_send: the learner is SEND iff some category is unexpired,
      and the disabled instruments and enabled options are the unions over
      those categories. */
  method LearnerSend(cats: seq<SendCategory>, now: int) returns (r: SendInfo)
    ensures r.isSend <==> exists i :: 0 <= i < |cats| && Unexpired(cats[i], now)
    ensures r.disabledInstruments == DisabledBy(cats, now)
    ensures r.enabledOptions == EnabledBy(cats, now)
  {
    var disabled: set<int> := {};
    var options: set<string> := {};
    var count := 0;
    var i := 0;
    while i < |cats|
      invariant 0 <= i <= |cats|
      invariant disabled == DisabledBy(cats[..i], now)
      invariant options == EnabledBy(cats[..i], now)
      invariant count > 0 <==> exists j :: 0 <= j < i && Unexpired(cats[j], now)
    {
      assert cats[..i + 1][..i] == cats[..i];
      var c := cats[i];
      if Unexpired(c, now) {
        count := count + 1;
        if c.disabledInstruments.Some? {
          disabled := disabled + set x | x in c.disabledInstruments.value;
        }
        if c.enabledOptions.Some? {
          options := options + set x | x in c.enabledOptions.value;
        }
      }
      i := i + 1;
    }
    assert cats[..i] == cats;
    r := SendInfo(count > 0, options, disabled);
  }

  /** One instrument configured for an activity, as get_learner_instruments
      returns it. */
  datatype InstrumentConf = InstrumentConf(instrumentId: int, requiresEnrolment: bool)

  /** A row of the learner's enrolment status for one instrument. */
  datatype EnrolmentSummary = EnrolmentSummary(
    instrumentId: int, percentageMin: real, percentageMax: real,
    canAnalyseMin: bool, canAnalyseMax: bool)

  datatype EnrolmentCheck = EnrolmentCheck(missingEnrolments: bool, instruments: map<int, EnrolmentSummary>)

  /** The row reported for a required instrument with no enrolment. */
  function Placeholder(id: int): EnrolmentSummary
  {
    EnrolmentSummary(id, 0.0, 0.0, false, false)
  }

  function Ids(conf: seq<InstrumentConf>): seq<int>
  {
    if conf == [] then [] else [conf[0].instrumentId] + Ids(conf[1..])
  }

  function RequiredIds(conf: seq<InstrumentConf>): seq<int>
  {
    if conf == [] then []
    else (if conf[0].requiresEnrolment then [conf[0].instrumentId] else []) + RequiredIds(conf[1..])
  }

  function SummaryIds(status: seq<EnrolmentSummary>): set<int>
  {
    set e | e in status :: e.instrumentId
  }

  /** The required instruments less one copy of each matched one. */
  function Unmatched(required: seq<int>, matched: set<int>): multiset<int>
  {
    multiset(required) - multiset(matched)
  }

  /** What the missing list holds: only required instruments, and each
      required instrument without a status row. */
  lemma MissingMembership(missing: seq<int>, required: seq<int>, matched: set<int>, x: int)
    requires multiset(missing) == Unmatched(required, matched)
    ensures x in missing ==> x in required
    ensures x in required && x !in matched ==> x in missing
  {
    assert x in missing <==> x in multiset(missing);
    assert x in required <==> x in multiset(required);
  }

  /** The instruments get_missing_enrolment leaves in its missing list:
      each required one without a status row, and each one the activity
      requires more than once, since a status row removes only one copy. */
  function StillMissing(required: seq<int>, matched: set<int>): set<int>
  {
    set x | x in required && (x !in matched || multiset(required)[x] >= 2)
  }

  /** The first loop of get_missing_enrolment: each status row of an
      instrument of the activity is recorded, removed once from the required
      list, and raises the flag when it cannot analyse. `list.remove` raises
      ValueError for a row whose instrument is not in the list, that is, an
      enrolled instrument of the activity that needs no enrolment. The
      activity may list an instrument more than once; the status rows are
      one per instrument. */
  method MatchEnrolled(instruments: seq<int>, required: seq<int>, status: seq<EnrolmentSummary>)
    returns (error: bool, missing: seq<int>, found: map<int, EnrolmentSummary>, flag: bool)
    requires forall i, j :: 0 <= i < j < |status| ==> status[i].instrumentId != status[j].instrumentId
    ensures error <==> exists e :: e in status && e.instrumentId in instruments && e.instrumentId !in required
    ensures !error ==> multiset(missing) == Unmatched(required, SummaryIds(status) * Members(instruments))
    ensures !error ==> found.Keys == Members(instruments) * SummaryIds(status)
    ensures !error ==>
              forall e :: e in status && e.instrumentId in instruments ==> e.instrumentId in found && found[e.instrumentId] == e
    ensures !error ==> (flag <==> exists e :: e in status && e.instrumentId in instruments && !e.canAnalyseMax)
  {
    error := false;
    missing := required;
    assert SummaryIds(status[..0]) * Members(instruments) == {} by {
      assert SummaryIds(status[..0]) == {};
    }
    found := map[];
    flag := false;
    var i := 0;
    while i < |status|
      invariant 0 <= i <= |status|
      invariant MatchedUpTo(instruments, required, status, i, missing, found, flag)
      invariant forall k :: 0 <= k < i && status[k].instrumentId in instruments ==> status[k].instrumentId in required
    {
      var stop;
      stop, missing, found, flag := MatchRow(instruments, required, status, i, missing, found, flag);
      if stop {
        assert status[i] in status;
        return true, missing, found, flag;
      }
      i := i + 1;
    }
    forall e | e in status && e.instrumentId in instruments
      ensures e.instrumentId in required
    {
      var k :| 0 <= k < |status| && status[k] == e;
    }
    MatchedAll(instruments, required, status, missing, found, flag);
  }

  /** One pass of the first loop of get_missing_enrolment: `stop` when
      `list.remove` raises for this row. */
  method MatchRow(instruments: seq<int>, required: seq<int>, status: seq<EnrolmentSummary>, i: int,
                  missing: seq<int>, found: map<int, EnrolmentSummary>, flag: bool)
    returns (stop: bool, missing': seq<int>, found': map<int, EnrolmentSummary>, flag': bool)
    requires forall a, b :: 0 <= a < b < |status| ==> status[a].instrumentId != status[b].instrumentId
    requires 0 <= i < |status|
    requires MatchedUpTo(instruments, required, status, i, missing, found, flag)
    ensures stop <==> status[i].instrumentId in instruments && status[i].instrumentId !in required
    ensures !stop ==> MatchedUpTo(instruments, required, status, i + 1, missing', found', flag')
  {
    var e := status[i];
    if e.instrumentId !in instruments {
      MatchStepOut(instruments, required, status, i, missing, found, flag);
      return false, missing, found, flag;
    }
    SummaryIdsStep(status, i);
    MissingMembership(missing, required, SummaryIds(status[..i]) * Members(instruments), e.instrumentId);
    if e.instrumentId !in missing {
      return true, missing, found, flag;
    }
    MatchStepIn(instruments, required, status, i, missing, found, flag);
    return false, RemoveValue(missing, e.instrumentId), found[e.instrumentId := e], flag || !e.canAnalyseMax;
  }

  /** After the last row, the loop state speaks of every status row. */
  lemma MatchedAll(instruments: seq<int>, required: seq<int>, status: seq<EnrolmentSummary>,
                   missing: seq<int>, found: map<int, EnrolmentSummary>, flag: bool)
    requires MatchedUpTo(instruments, required, status, |status|, missing, found, flag)
    ensures multiset(missing) == Unmatched(required, SummaryIds(status) * Members(instruments))
    ensures found.Keys == Members(instruments) * SummaryIds(status)
    ensures forall e :: e in status && e.instrumentId in instruments ==> e.instrumentId in found && found[e.instrumentId] == e
    ensures flag <==> exists e :: e in status && e.instrumentId in instruments && !e.canAnalyseMax
  {
    assert status[..|status|] == status;
    forall e | e in status && e.instrumentId in instruments
      ensures e.instrumentId in found && found[e.instrumentId] == e
    {
      var k :| 0 <= k < |status| && status[k] == e;
    }
    if e :| e in status && e.instrumentId in instruments && !e.canAnalyseMax {
      var k :| 0 <= k < |status| && status[k] == e;
    }
  }

  /** The state of the first loop of get_missing_enrolment after the first
      `i` status rows. */
  ghost predicate MatchedUpTo(instruments: seq<int>, required: seq<int>, status: seq<EnrolmentSummary>, i: int,
                              missing: seq<int>, found: map<int, EnrolmentSummary>, flag: bool)
    requires 0 <= i <= |status|
  {
    multiset(missing) == Unmatched(required, SummaryIds(status[..i]) * Members(instruments)) &&
    found.Keys == Members(instruments) * SummaryIds(status[..i]) &&
    (forall k :: 0 <= k < i && status[k].instrumentId in instruments ==>
                 status[k].instrumentId in found && found[status[k].instrumentId] == status[k]) &&
    (flag <==> exists k :: 0 <= k < i && status[k].instrumentId in instruments && !status[k].canAnalyseMax)
  }

  /** One status row more for an instrument of the activity: it is
      recorded, one copy is removed from the required list and it may raise
      the flag. */
  lemma MatchStepIn(instruments: seq<int>, required: seq<int>, status: seq<EnrolmentSummary>, i: int,
                    missing: seq<int>, found: map<int, EnrolmentSummary>, flag: bool)
    requires forall a, b :: 0 <= a < b < |status| ==> status[a].instrumentId != status[b].instrumentId
    requires 0 <= i < |status| && status[i].instrumentId in instruments && status[i].instrumentId in required
    requires MatchedUpTo(instruments, required, status, i, missing, found, flag)
    ensures var e := status[i];
            e.instrumentId in missing &&
            MatchedUpTo(instruments, required, status, i + 1, RemoveValue(missing, e.instrumentId),
                        found[e.instrumentId := e], flag || !e.canAnalyseMax)
  {
    var e := status[i];
    var x := e.instrumentId;
    var seen' := SummaryIds(status[..i + 1]);
    SummaryIdsStep(status, i);
    MissingStep(missing, required, SummaryIds(status[..i]) * Members(instruments), x);
    assert seen' * Members(instruments) == SummaryIds(status[..i]) * Members(instruments) + {x};
    var found' := found[x := e];
    assert found'.Keys == Members(instruments) * seen';
    forall k | 0 <= k < i + 1 && status[k].instrumentId in instruments
      ensures status[k].instrumentId in found' && found'[status[k].instrumentId] == status[k]
    {
      if k < i {
        assert status[k].instrumentId != x;
      }
    }
    var flag' := flag || !e.canAnalyseMax;
    assert flag' <==> exists k :: 0 <= k < i + 1 && status[k].instrumentId in instruments && !status[k].canAnalyseMax by {
      if !e.canAnalyseMax {
        assert 0 <= i < i + 1 && status[i].instrumentId in instruments && !status[i].canAnalyseMax;
      }
    }
  }

  /** Removing a matched instrument from the missing list keeps it equal,
      as a multiset, to the required list less the matched instruments. */
  lemma MissingStep(missing: seq<int>, required: seq<int>, matched: set<int>, x: int)
    requires multiset(missing) == Unmatched(required, matched)
    requires x !in matched && x in required
    ensures x in missing
    ensures multiset(RemoveValue(missing, x)) == Unmatched(required, matched + {x})
  {
    assert multiset(missing)[x] == multiset(required)[x];
    assert x in multiset(missing);
    RemoveValueCount(missing, x);
    assert multiset(matched + {x}) == multiset(matched) + multiset{x};
  }

  /** One status row more for an instrument outside the activity changes
      nothing. */
  lemma MatchStepOut(instruments: seq<int>, required: seq<int>, status: seq<EnrolmentSummary>, i: int,
                     missing: seq<int>, found: map<int, EnrolmentSummary>, flag: bool)
    requires forall a, b :: 0 <= a < b < |status| ==> status[a].instrumentId != status[b].instrumentId
    requires 0 <= i < |status| && status[i].instrumentId !in instruments
    requires MatchedUpTo(instruments, required, status, i, missing, found, flag)
    ensures MatchedUpTo(instruments, required, status, i + 1, missing, found, flag)
  {
    var e := status[i];
    var seen := SummaryIds(status[..i]);
    SummaryIdsStep(status, i);
    assert seen * Members(instruments) == (seen + {e.instrumentId}) * Members(instruments);
  }

  /** One more status row adds its instrument, which no earlier row has. */
  lemma SummaryIdsStep(status: seq<EnrolmentSummary>, i: int)
    requires 0 <= i < |status|
    requires forall a, b :: 0 <= a < b < |status| ==> status[a].instrumentId != status[b].instrumentId
    ensures SummaryIds(status[..i + 1]) == SummaryIds(status[..i]) + {status[i].instrumentId}
    ensures status[i].instrumentId !in SummaryIds(status[..i])
  {
    assert status[..i + 1] == status[..i] + [status[i]];
    forall e | e in status[..i]
      ensures e.instrumentId != status[i].instrumentId
    {
      var k :| 0 <= k < i && status[..i][k] == e;
    }
  }

  /** The second loop of get_missing_enrolment: one placeholder row per
      instrument still missing. */
  method AddPlaceholders(found: map<int, EnrolmentSummary>, missing: seq<int>)
    returns (r: map<int, EnrolmentSummary>)
    ensures r.Keys == found.Keys + Members(missing)
    ensures forall x :: x in missing ==> r[x] == Placeholder(x)
    ensures forall x :: x in found && x !in missing ==> r[x] == found[x]
  {
    r := found;
    var j := 0;
    while j < |missing|
      invariant 0 <= j <= |missing|
      invariant r.Keys == found.Keys + Members(missing[..j])
      invariant forall x :: x in missing[..j] ==> r[x] == Placeholder(x)
      invariant forall x :: x in found && x !in missing[..j] ==> r[x] == found[x]
    {
      assert missing[..j + 1] == missing[..j] + [missing[j]];
      r := r[missing[j] := Placeholder(missing[j])];
      j := j + 1;
    }
    assert missing[..j] == missing;
  }

  /** get_missing_enrolment. Each enrolled instrument of the activity is
      removed once from the required list, which raises ValueError when it
      needs no enrolment; the status rows are one per instrument. */
  method MissingEnrolment(enabled: bool, conf: seq<InstrumentConf>, status: seq<EnrolmentSummary>)
    returns (r: Result<EnrolmentCheck>)
    requires forall i, j :: 0 <= i < j < |status| ==> status[i].instrumentId != status[j].instrumentId
    ensures !enabled ==> r == Ok(EnrolmentCheck(false, map[]))
    ensures enabled ==>
              (r.Err? <==> exists e :: e in status && e.instrumentId in Ids(conf) && e.instrumentId !in RequiredIds(conf))
    ensures r.Err? ==> r.error == "list.remove(x): x not in list"
    ensures enabled && r.Ok? ==> Reported(conf, status, r.value)
  {
    if !enabled {
      return Ok(EnrolmentCheck(false, map[]));
    }
    var instruments := Ids(conf);
    var required := RequiredIds(conf);
    var error, missing, found, flag := MatchEnrolled(instruments, required, status);
    if error {
      return Err("list.remove(x): x not in list");
    }
    var c := CompleteReport(found, missing, flag);
    ReportedFromMatch(conf, status, missing, found, flag, c);
    r := Ok(c);
  }

  /** The end of get_missing_enrolment: when instruments are still missing
      the flag is raised and the second loop adds their placeholders. */
  method CompleteReport(found: map<int, EnrolmentSummary>, missing: seq<int>, flag: bool)
    returns (c: EnrolmentCheck)
    ensures c.missingEnrolments == (flag || |missing| > 0)
    ensures c.instruments.Keys == found.Keys + Members(missing)
    ensures forall x :: x in missing ==> c.instruments[x] == Placeholder(x)
    ensures forall x :: x in found && x !in missing ==> c.instruments[x] == found[x]
  {
    if |missing| > 0 {
      var all := AddPlaceholders(found, missing);
      c := EnrolmentCheck(true, all);
    } else {
      assert Members(missing) == {};
      c := EnrolmentCheck(flag, found);
    }
  }

  /** What the two loops of get_missing_enrolment leave is the report
      Reported describes. */
  lemma ReportedFromMatch(conf: seq<InstrumentConf>, status: seq<EnrolmentSummary>,
                          missing: seq<int>, found: map<int, EnrolmentSummary>, flag: bool, c: EnrolmentCheck)
    requires multiset(missing) == Unmatched(RequiredIds(conf), SummaryIds(status) * Members(Ids(conf)))
    requires found.Keys == Members(Ids(conf)) * SummaryIds(status)
    requires forall e :: e in status && e.instrumentId in Ids(conf) ==> e.instrumentId in found && found[e.instrumentId] == e
    requires flag <==> exists e :: e in status && e.instrumentId in Ids(conf) && !e.canAnalyseMax
    requires c.missingEnrolments == (flag || |missing| > 0)
    requires c.instruments.Keys == found.Keys + Members(missing)
    requires forall x :: x in missing ==> c.instruments[x] == Placeholder(x)
    requires forall x :: x in found && x !in missing ==> c.instruments[x] == found[x]
    ensures Reported(conf, status, c)
  {
    var matched := Members(Ids(conf)) * SummaryIds(status);
    assert SummaryIds(status) * Members(Ids(conf)) == matched;
    var left := StillMissing(RequiredIds(conf), matched);
    MissingAreStillMissing(missing, RequiredIds(conf), matched);
    assert c.missingEnrolments <==> left != {} || (exists e :: e in status && e.instrumentId in Ids(conf) && !e.canAnalyseMax) by {
      if |missing| > 0 {
        assert missing[0] in Members(missing);
      }
    }
    assert c.instruments.Keys == matched + left;
    assert forall x :: x in left ==> c.instruments[x] == Placeholder(x);
  }

  /** The missing list holds, once or more, exactly the instruments still
      missing. */
  lemma MissingAreStillMissing(missing: seq<int>, required: seq<int>, matched: set<int>)
    requires multiset(missing) == Unmatched(required, matched)
    ensures Members(missing) == StillMissing(required, matched)
  {
    forall x
      ensures x in missing <==> x in StillMissing(required, matched)
    {
      assert x in missing <==> x in multiset(missing);
      assert x in required <==> x in multiset(required);
    }
  }

  /** The report of an enabled activity: missing iff some required
      instrument is still missing (no row, or required twice) or some
      enrolled one cannot be analysed; the enrolled instruments of the
      activity with their rows, except that a still-missing one is reported
      with a placeholder, and nothing else. */
  ghost predicate Reported(conf: seq<InstrumentConf>, status: seq<EnrolmentSummary>, c: EnrolmentCheck)
  {
    var matched := Members(Ids(conf)) * SummaryIds(status);
    var left := StillMissing(RequiredIds(conf), matched);
    (c.missingEnrolments <==> left != {} || (exists e :: e in status && e.instrumentId in Ids(conf) && !e.canAnalyseMax)) &&
    c.instruments.Keys == matched + left &&
    (forall e :: e in status && e.instrumentId in Ids(conf) && e.instrumentId !in left ==> c.instruments[e.instrumentId] == e) &&
    (forall x :: x in left ==> c.instruments[x] == Placeholder(x))
  }

  /** Without repeated instruments, exactly the required instruments with
      no status row are still missing. */
  lemma DistinctLeavesUnmatched(required: seq<int>, matched: set<int>)
    requires Distinct(required)
    ensures StillMissing(required, matched) == Members(required) - matched
  {
    forall x | x in required
      ensures multiset(required)[x] == 1
    {
      DistinctCountsOne(required, x);
    }
  }

  lemma {:induction false} DistinctCountsOne(s: seq<int>, x: int)
    requires Distinct(s) && x in s
    ensures multiset(s)[x] == 1
  {
    assert s == [s[0]] + s[1..];
    if s[0] == x {
      assert multiset(s[1..])[x] == 0;
    } else {
      DistinctCountsOne(s[1..], x);
    }
  }

  /** An instrument the activity lists twice, as a primary and as the
      alternative to a disabled one, stays missing even with a usable
      status row, and is reported with the placeholder. */
  lemma RepeatedInstrumentStaysMissing(x: int, e: EnrolmentSummary)
    requires e.instrumentId == x && e.canAnalyseMax
    ensures var conf := [InstrumentConf(x, true), InstrumentConf(x, true)];
            StillMissing(RequiredIds(conf), Members(Ids(conf)) * SummaryIds([e])) == {x}
    ensures forall c :: Reported([InstrumentConf(x, true), InstrumentConf(x, true)], [e], c) ==>
              c.missingEnrolments && c.instruments.Keys == {x} && c.instruments[x] == Placeholder(x)
  {
    var conf := [InstrumentConf(x, true), InstrumentConf(x, true)];
    assert conf[1..] == [InstrumentConf(x, true)];
    var one := [InstrumentConf(x, true)];
    assert one[1..] == [];
    assert RequiredIds(one) == [x] && Ids(one) == [x];
    assert RequiredIds(conf) == [x, x];
    assert Ids(conf) == [x, x];
    assert SummaryIds([e]) == {x};
    assert multiset([x, x])[x] == 2;
  }

  /** The required instruments are among the activity's instruments, and
      are listed once each when the activity lists each instrument once. */
  lemma {:induction false} RequiredAmongInstruments(conf: seq<InstrumentConf>)
    ensures forall x :: x in RequiredIds(conf) ==> x in Ids(conf)
    ensures Distinct(Ids(conf)) ==> Distinct(RequiredIds(conf))
  {
    if conf != [] {
      assert Ids(conf)[1..] == Ids(conf[1..]);
      RequiredAmongInstruments(conf[1..]);
      var rest := RequiredIds(conf[1..]);
      if conf[0].requiresEnrolment {
        assert RequiredIds(conf) == [conf[0].instrumentId] + rest;
        assert RequiredIds(conf)[1..] == rest;
      } else {
        assert RequiredIds(conf) == rest;
      }
    }
  }
}
