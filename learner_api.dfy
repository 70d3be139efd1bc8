/** The learner API: where an uploaded verification request, alert or
    enrolment sample is stored, what task is queued for it, and the status
    of stored samples read back from their marker files. */
module LearnerApi {
  import opened Wrappers
  import opened Text

  /** The storage as the views see it: which paths exist, and the JSON text
      of each. */
  type Storage = map<string, string>

  datatype PathStatus = PathStatus(status: string, info: Option<string>)

  /** StatusView._get_path_status: a missing sample is NOT_FOUND; otherwise
      the first marker present among error, valid and timeout decides, and
      a sample without marker is PENDING. */
  function GetPathStatus(storage: Storage, path: string): (r: PathStatus)
    ensures path !in storage ==> r == PathStatus("NOT_FOUND", None)
    ensures path in storage && path + ".error" in storage ==> r == PathStatus("ERROR", Some(storage[path + ".error"]))
    ensures path in storage && path + ".error" !in storage && path + ".valid" in storage ==>
              r == PathStatus("VALID", Some(storage[path + ".valid"]))
    ensures path in storage && path + ".error" !in storage && path + ".valid" !in storage && path + ".timeout" in storage ==>
              r == PathStatus("TIMEOUT", Some(storage[path + ".timeout"]))
    ensures r.info.None? <==> r.status in {"NOT_FOUND", "PENDING"}
    ensures r.status == "PENDING" <==>
              path in storage && path + ".error" !in storage && path + ".valid" !in storage && path + ".timeout" !in storage
  {
    if path !in storage then PathStatus("NOT_FOUND", None)
    else if path + ".error" in storage then PathStatus("ERROR", Some(storage[path + ".error"]))
    else if path + ".valid" in storage then PathStatus("VALID", Some(storage[path + ".valid"]))
    else if path + ".timeout" in storage then PathStatus("TIMEOUT", Some(storage[path + ".timeout"]))
    else PathStatus("PENDING", None)
  }

  datatype SampleStatus = SampleStatus(sample: string, status: string, info: Option<string>)

  datatype StatusResponse =
    | BadRequest
    | Forbidden(errors: string)
    | Statuses(entries: seq<SampleStatus>)

  /** StatusView.post: a request the serializer refuses is a bad request; a
      request whose token does not match is forbidden before any status is
      read; otherwise one entry per sample, in order. */
  method StatusPost(valid: bool, authenticated: bool, samples: seq<string>, storage: Storage)
    returns (r: StatusResponse)
    ensures !valid <==> r.BadRequest?
    ensures valid && !authenticated <==> r == Forbidden("Invalid token")
    ensures r.Statuses? ==>
              |r.entries| == |samples| &&
              forall k :: 0 <= k < |samples| ==>
                r.entries[k].sample == samples[k] &&
                PathStatus(r.entries[k].status, r.entries[k].info) == GetPathStatus(storage, samples[k])
  {
    if !valid {
      return BadRequest;
    }
    if !authenticated {
      return Forbidden("Invalid token");
    }
    var entries: seq<SampleStatus> := [];
    var i := 0;
    while i < |samples|
      invariant 0 <= i <= |samples|
      invariant |entries| == i
      invariant forall k :: 0 <= k < i ==>
                  entries[k].sample == samples[k] &&
                  PathStatus(entries[k].status, entries[k].info) == GetPathStatus(storage, samples[k])
    {
      var s := GetPathStatus(storage, samples[i]);
      entries := entries + [SampleStatus(samples[i], s.status, s.info)];
      i := i + 1;
    }
    r := Statuses(entries);
  }

  /** The request data a learner posts; `metadata` is the posted metadata
      object, when there is one, and `raisedAt` the time an alert says it
      was raised, when posted. */
  datatype RequestData = RequestData(
    learner: string, course: int, activity: int, session: Option<int>,
    metadata: Option<map<string, string>>, level: string, instruments: seq<int>, raisedAt: Option<string>)

  /** A path whose segments hold no separator splits back into them. */
  predicate Segment(s: string)
  {
    '/' !in s
  }

  /** LearnerVerification.get_storing_path: under the activity's documents,
      or under its session when there is one. */
  function VerificationPath(institution: int, prefix: string, data: RequestData): (path: string)
    ensures var filename := if data.metadata.None? then "request"
                            else if "filename" in data.metadata.value then data.metadata.value["filename"] else "document";
            var head := [IntToString(institution), "requests", data.learner, IntToString(data.course), IntToString(data.activity)];
            var tail := if data.session.None? then ["documents", prefix + "_" + filename]
                        else ["sessions", IntToString(data.session.value), prefix + "_" + filename];
            Segment(data.learner) && Segment(prefix) && Segment(filename) ==> Split(path, '/') == head + tail
  {
    var filename := if data.metadata.None? then "request"
                    else if "filename" in data.metadata.value then data.metadata.value["filename"] else "document";
    var head := [IntToString(institution), "requests", data.learner, IntToString(data.course), IntToString(data.activity)];
    var tail := if data.session.None? then ["documents", prefix + "_" + filename]
                else ["sessions", IntToString(data.session.value), prefix + "_" + filename];
    SplitsBack(head + tail);
    Join(head + tail, "/")
  }

  /** Joining segments with '/' and splitting gives the segments back. */
  lemma SplitsBack(segments: seq<string>)
    requires |segments| >= 1
    ensures (forall i :: 0 <= i < |segments| ==> Segment(segments[i])) ==> Split(Join(segments, "/"), '/') == segments
  {
    if forall i :: 0 <= i < |segments| ==> Segment(segments[i]) {
      SplitJoin(segments, '/');
    }
  }

  datatype VerificationTask = VerificationTask(activity: int, learner: string, path: string, instruments: seq<int>, session: Option<int>)

  /** LearnerVerification.enqueue_request: the create_request task gets the
      stored path and the session, possibly none. */
  function EnqueueVerification(data: RequestData, path: string): (t: VerificationTask)
    ensures t.path == path && t.session == data.session
    ensures t.activity == data.activity && t.learner == data.learner && t.instruments == data.instruments
  {
    VerificationTask(data.activity, data.learner, path, data.instruments, data.session)
  }

  /** LearnerAlert.get_storing_path: the alert is stored under the learner's
      alerts, named after its upper-cased level. */
  function AlertPath(institution: int, prefix: string, data: RequestData): (path: string)
    ensures var head := [IntToString(institution), "alerts", data.learner, IntToString(data.course), IntToString(data.activity)];
            var tail := if data.session.Some? then ["sessions", IntToString(data.session.value), prefix + "_" + Upper(data.level)]
                        else ["documents", prefix + "_" + Upper(data.level)];
            Segment(data.learner) && Segment(prefix) && Segment(data.level) ==> Split(path, '/') == head + tail
  {
    var head := [IntToString(institution), "alerts", data.learner, IntToString(data.course), IntToString(data.activity)];
    var tail := if data.session.Some? then ["sessions", IntToString(data.session.value), prefix + "_" + Upper(data.level)]
                else ["documents", prefix + "_" + Upper(data.level)];
    UpperKeepsSlash(data.level);
    SplitsBack(head + tail);
    Join(head + tail, "/")
  }

  lemma UpperKeepsSlash(s: string)
    ensures Segment(s) ==> Segment(Upper(s))
  {
    if Segment(s) {
      forall i | 0 <= i < |s| ensures Upper(s)[i] != '/' {
        assert s[i] != '/';
      }
    }
  }

  datatype AlertTask = AlertTask(level: string, activity: int, learner: string, path: string,
                                 raisedAt: Option<string>, instruments: seq<int>, session: Option<int>)

  /** LearnerAlert.enqueue_request: the create_alert task gets the level as
      posted, not upper-cased, the time the alert was raised, if posted, and
      the stored path. */
  function EnqueueAlert(data: RequestData, path: string): (t: AlertTask)
    ensures t.level == data.level && t.path == path && t.session == data.session && t.raisedAt == data.raisedAt
    ensures t.activity == data.activity && t.learner == data.learner && t.instruments == data.instruments
  {
    AlertTask(data.level, data.activity, data.learner, path, data.raisedAt, data.instruments, data.session)
  }

  /** LearnerEnrolment.get_storing_path: a sample is stored under the
      learner's enrolment samples; course, activity and session play no
      part. */
  function EnrolmentPath(institution: int, prefix: string, data: RequestData): (path: string)
    ensures var filename := if data.metadata.Some? && "filename" in data.metadata.value
                            then data.metadata.value["filename"] else "request";
            Segment(data.learner) && Segment(prefix) && Segment(filename) ==>
              Split(path, '/') == [IntToString(institution), "enrolment", data.learner, "samples", prefix + "_" + filename]
  {
    var filename := if data.metadata.Some? && "filename" in data.metadata.value
                    then data.metadata.value["filename"] else "request";
    var segments := [IntToString(institution), "enrolment", data.learner, "samples", prefix + "_" + filename];
    SplitsBack(segments);
    Join(segments, "/")
  }

  /** Course, activity and session never reach an enrolment path. */
  lemma EnrolmentPathIgnoresContext(institution: int, prefix: string, data: RequestData,
                                    course: int, activity: int, session: Option<int>)
    ensures EnrolmentPath(institution, prefix, data) ==
            EnrolmentPath(institution, prefix, data.(course := course, activity := activity, session := session))
  {
  }

  datatype SampleTask = SampleTask(learner: string, path: string, instruments: seq<int>)

  /** LearnerEnrolment.enqueue_request: the create_sample task gets exactly
      the learner, the stored path and the instruments. */
  function EnqueueSample(data: RequestData, path: string): (t: SampleTask)
    ensures t.learner == data.learner && t.path == path && t.instruments == data.instruments
  {
    SampleTask(data.learner, path, data.instruments)
  }
}
