/** Assessment sessions: a learner's sittings of an activity. Closing one
    also closes, as automatically closed, the earlier sessions of the same
    learner and activity that are still open. Sessions are numbered by
    their position in the table. */
module AssessmentSessions {
  import opened Wrappers

  datatype Session = Session(activity: int, learner: int, startedAt: int, closedAt: Option<int>, autoClosed: Option<bool>)

  /** is_active: not closed yet. */
  predicate IsActive(s: Session)
  {
    s.closedAt.None?
  }

  /** Whether session `j` is one that closing session `i` closes with it. */
  predicate Related(sessions: seq<Session>, i: int, j: int)
    requires 0 <= i < |sessions| && 0 <= j < |sessions|
  {
    sessions[j].activity == sessions[i].activity && sessions[j].learner == sessions[i].learner &&
    sessions[j].startedAt < sessions[i].startedAt && IsActive(sessions[j])
  }

  /** The table after session `i` is closed at `now`. */
  function AfterClose(sessions: seq<Session>, i: int, auto: bool, closeRelated: bool, now: int): (r: seq<Session>)
    requires 0 <= i < |sessions|
    ensures |r| == |sessions|
    ensures !IsActive(r[i]) && r[i].closedAt == Some(now) && r[i].autoClosed == Some(auto)
    ensures forall j :: 0 <= j < |r| && j != i ==>
              r[j] == if closeRelated && Related(sessions, i, j)
                      then sessions[j].(closedAt := Some(now), autoClosed := Some(true))
                      else sessions[j]
  {
    seq(|sessions|, j requires 0 <= j < |sessions| =>
      if j == i then sessions[j].(closedAt := Some(now), autoClosed := Some(auto))
      else if closeRelated && Related(sessions, i, j) then sessions[j].(closedAt := Some(now), autoClosed := Some(true))
      else sessions[j])
  }

  /** After a close with related sessions, the learner has no open session
      of that activity started before the closed one. */
  lemma CloseLeavesNoEarlierOpen(sessions: seq<Session>, i: int, auto: bool, now: int)
    requires 0 <= i < |sessions|
    ensures var r := AfterClose(sessions, i, auto, true, now);
            forall j :: (0 <= j < |r| && r[j].activity == r[i].activity && r[j].learner == r[i].learner &&
                         r[j].startedAt < r[i].startedAt) ==> !IsActive(r[j])
  {
    var r := AfterClose(sessions, i, auto, true, now);
    forall j | 0 <= j < |r| && r[j].activity == r[i].activity && r[j].learner == r[i].learner &&
               r[j].startedAt < r[i].startedAt
      ensures !IsActive(r[j])
    {
      if j != i && IsActive(sessions[j]) {
        assert Related(sessions, i, j);
      }
    }
  }

  /** Sessions of other learners or activities, and later ones, are never
      touched. */
  lemma CloseSparesOthers(sessions: seq<Session>, i: int, auto: bool, closeRelated: bool, now: int, j: int)
    requires 0 <= i < |sessions| && 0 <= j < |sessions| && j != i
    requires sessions[j].activity != sessions[i].activity || sessions[j].learner != sessions[i].learner ||
             sessions[j].startedAt >= sessions[i].startedAt
    ensures AfterClose(sessions, i, auto, closeRelated, now)[j] == sessions[j]
  {
  }

  class SessionTable {
    var sessions: seq<Session>

    constructor (sessions: seq<Session>)
      ensures this.sessions == sessions
    {
      this.sessions := sessions;
    }

    /** AssessmentSession.close: the session is closed at `now` with the given
        auto flag; with `closeRelated`, each earlier open session of the same
        learner and activity is closed as automatic, without closing further
        sessions in turn. */
    method Close(i: int, auto: bool, closeRelated: bool, now: int)
      requires 0 <= i < |sessions|
      modifies this
      ensures sessions == AfterClose(old(sessions), i, auto, closeRelated, now)
    {
      var before := sessions;
      sessions := sessions[i := sessions[i].(closedAt := Some(now), autoClosed := Some(auto))];
      if closeRelated {
        var j := 0;
        while j < |sessions|
          invariant 0 <= j <= |sessions| == |before|
          invariant sessions[i] == before[i].(closedAt := Some(now), autoClosed := Some(auto))
          invariant forall k :: 0 <= k < |sessions| && k != i ==>
                      sessions[k] == if k < j && Related(before, i, k)
                                     then before[k].(closedAt := Some(now), autoClosed := Some(true))
                                     else before[k]
        {
          if j != i && sessions[j].activity == sessions[i].activity && sessions[j].learner == sessions[i].learner &&
             sessions[j].startedAt < sessions[i].startedAt && sessions[j].closedAt.None? {
            sessions := sessions[j := sessions[j].(closedAt := Some(now), autoClosed := Some(true))];
          }
          j := j + 1;
        }
      }
      assert sessions == AfterClose(before, i, auto, closeRelated, now);
    }
  }
}
