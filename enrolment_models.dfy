/** Enrolment models as providers see them: where a model is stored, the
    lock a provider task takes while it rebuilds a model, the update that
    releases it, the explicit unlock, and which samples a model may still
    use. There is at most one model per (learner, provider): the table is
    a map keyed by that pair. */
module EnrolmentModels {
  import opened Wrappers
  import opened Text

  /** How long a lock holds against other tasks: 5 hours, in seconds. */
  const LOCK_TIMEOUT := 5 * 60 * 60

  datatype Enrolment = Enrolment(
    percentage: real, canAnalyse: bool, lockedAt: Option<int>, lockedBy: Option<string>, modelSamples: set<int>)

  /** (learner, provider) */
  type Key = (int, int)

  /** get_upload_path: the file name given by the storage plays no part. */
  function UploadPath(institution: int, learnerId: string, instrument: int, provider: int, filename: string): (path: string)
    ensures '/' !in learnerId ==>
              Split(path, '/') == [IntToString(institution), "models", learnerId, IntToString(instrument),
                                   IntToString(provider) + ".json"]
  {
    var segments := [IntToString(institution), "models", learnerId, IntToString(instrument), IntToString(provider) + ".json"];
    assert '/' !in learnerId ==> Split(Join(segments, "/"), '/') == segments by {
      if '/' !in learnerId {
        NoSlashInNumberFile(provider);
        SplitJoin(segments, '/');
      }
    }
    Join(segments, "/")
  }

  lemma NoSlashInNumberFile(n: int)
    ensures '/' !in IntToString(n) + ".json"
  {
  }

  /** The model file of a (learner, provider) pair is the same whatever the
      file name. */
  lemma UploadPathIgnoresFilename(institution: int, learnerId: string, instrument: int, provider: int, a: string, b: string)
    ensures UploadPath(institution, learnerId, instrument, provider, a) == UploadPath(institution, learnerId, instrument, provider, b)
  {
  }

  /** is_locked: both lock fields are set. */
  predicate IsLocked(e: Enrolment)
  {
    e.lockedAt.Some? && e.lockedBy.Some?
  }

  /** model_total_samples */
  function ModelTotalSamples(e: Enrolment): (n: nat)
    ensures n == 0 <==> e.modelSamples == {}
  {
    |e.modelSamples|
  }

  /** The model created when none exists yet. */
  const NEW_MODEL := Enrolment(0.0, false, None, None, {})

  function Current(models: map<Key, Enrolment>, key: Key): Enrolment
  {
    if key in models then models[key] else NEW_MODEL
  }

  /** Whether the lock of `e` refuses `task` at time `now`: it is held by
      another task and was taken at most 5 hours ago. */
  predicate Blocks(e: Enrolment, task: string, now: int)
  {
    IsLocked(e) && e.lockedBy.value != task && e.lockedAt.value >= now - LOCK_TIMEOUT
  }

  function Lock(e: Enrolment, task: string, now: int): (r: Enrolment)
    ensures IsLocked(r) && r.lockedBy == Some(task) && r.lockedAt == Some(now)
    ensures r.percentage == e.percentage && r.canAnalyse == e.canAnalyse && r.modelSamples == e.modelSamples
  {
    e.(lockedBy := Some(task), lockedAt := Some(now))
  }

  /** A lock refuses every other task for 5 hours. */
  lemma LockExcludesOthers(e: Enrolment, task: string, now: int, other: string, later: int)
    requires other != task && later <= now + LOCK_TIMEOUT
    ensures Blocks(Lock(e, task, now), other, later)
  {
  }

  /** A lock older than 5 hours no longer refuses anyone, and the holder
      may always take its lock again. */
  lemma StaleOrOwnLockAllowed(e: Enrolment, task: string, now: int, other: string, later: int)
    ensures later > now + LOCK_TIMEOUT ==> !Blocks(Lock(e, task, now), other, later)
    ensures !Blocks(Lock(e, task, now), task, later)
  {
  }

  /** What the update keeps and clears: the lock is released and the given
      fields are applied. */
  function Release(e: Enrolment, percentage: Option<real>, canAnalyse: Option<bool>, usedSamples: Option<set<int>>): (r: Enrolment)
    ensures !IsLocked(r) && r.lockedAt.None? && r.lockedBy.None?
    ensures r.percentage == percentage.UnwrapOr(e.percentage)
    ensures r.canAnalyse == canAnalyse.UnwrapOr(e.canAnalyse)
    ensures r.modelSamples == usedSamples.UnwrapOr(e.modelSamples)
  {
    Enrolment(percentage.UnwrapOr(e.percentage), canAnalyse.UnwrapOr(e.canAnalyse), None, None,
              usedSamples.UnwrapOr(e.modelSamples))
  }

  datatype UnlockOutcome = NotFound | NotAcceptable | PermissionDenied | Unlocked

  /** A sample as the listings see it: whose it is and its status. */
  datatype Sample = Sample(learner: string, status: int)

  /** An enrolment sample validation: the sample, the instrument of the
      provider that validated it, and the validation status. */
  datatype SampleValidation = SampleValidation(sample: int, instrument: int, status: int)

  /** available_samples: the learner's accepted samples (status 1) that a
      provider of the same instrument validated (status 1) and that the
      model does not use yet. */
  function AvailableSamples(samples: map<int, Sample>, validations: set<SampleValidation>, learner: string,
                            instrument: int, used: set<int>): (r: set<int>)
    ensures forall id :: id in r <==>
              id in samples && samples[id].status == 1 && samples[id].learner == learner && id !in used &&
              SampleValidation(id, instrument, 1) in validations
  {
    set v | v in validations && v.instrument == instrument && v.status == 1 && v.sample in samples &&
            samples[v.sample].learner == learner && v.sample !in used && samples[v.sample].status == 1 :: v.sample
  }

  /** used_samples: the existing samples of the model, none without one. */
  function UsedSamples(models: map<Key, Enrolment>, key: Key, samples: map<int, Sample>): (r: set<int>)
    ensures key !in models ==> r == {}
    ensures key in models ==> r == models[key].modelSamples * samples.Keys
  {
    if key in models then set id | id in models[key].modelSamples && id in samples else {}
  }

  /** A sample is never listed both as used by a model and as available to
      it. */
  lemma AvailableAndUsedDisjoint(models: map<Key, Enrolment>, key: Key, samples: map<int, Sample>,
                                 validations: set<SampleValidation>, learner: string, instrument: int)
    ensures var used := if key in models then models[key].modelSamples else {};
            AvailableSamples(samples, validations, learner, instrument, used) !! UsedSamples(models, key, samples)
  {
  }

  /** The enrolment models of the installation. */
  class EnrolmentTable {
    var models: map<Key, Enrolment>

    constructor ()
      ensures models == map[]
    {
      models := map[];
    }

    /** ProviderEnrolmentSerializer.validate_learner_id and validate: an
        unknown learner is refused; the model of (learner, provider) is
        created if missing and locked for `task` unless another task holds
        a lock younger than 5 hours. A refused request changes nothing (the
        creation is rolled back with the transaction). */
    method AcquireLock(learners: map<string, int>, learnerId: string, provider: int, task: string, now: int)
      returns (r: Result<Key>)
      modifies this
      ensures learnerId !in learners ==> r == Err("Invalid learner") && models == old(models)
      ensures learnerId in learners ==>
                var key := (learners[learnerId], provider);
                if Blocks(Current(old(models), key), task, now)
                then r == Err("Model is locked") && models == old(models)
                else r == Ok(key) && models == old(models)[key := Lock(Current(old(models), key), task, now)]
    {
      if learnerId !in learners {
        return Err("Invalid learner");
      }
      var key := (learners[learnerId], provider);
      var model := Current(models, key);
      if IsLocked(model) && model.lockedBy.value != task {
        if model.lockedAt.value >= now - LOCK_TIMEOUT {
          return Err("Model is locked");
        }
      }
      model := model.(lockedBy := Some(task), lockedAt := Some(now));
      models := models[key := model];
      r := Ok(key);
    }

    /** ProviderEnrolmentSerializer.update: a PUT applies the request's
        fields and releases the lock; any other method changes nothing. A PUT
        is a full update, so a field the request omits arrives with its
        serializer default: percentage 0, can_analyse false, no used samples. */
    method Update(key: Key, isPut: bool, percentage: Option<real>, canAnalyse: Option<bool>, usedSamples: Option<set<int>>)
      requires key in models
      modifies this
      ensures !isPut ==> models == old(models)
      ensures isPut ==> models == old(models)[key := Release(old(models)[key], Some(percentage.UnwrapOr(0.0)),
                                                             Some(canAnalyse.UnwrapOr(false)), Some(usedSamples.UnwrapOr({})))]
      ensures isPut ==> models[key].percentage == percentage.UnwrapOr(0.0) &&
                        models[key].canAnalyse == canAnalyse.UnwrapOr(false) &&
                        models[key].modelSamples == usedSamples.UnwrapOr({})
    {
      if isPut {
        var percentage := Some(percentage.UnwrapOr(0.0));
        var canAnalyse := Some(canAnalyse.UnwrapOr(false));
        var usedSamples := Some(usedSamples.UnwrapOr({}));
        var model := models[key];
        if percentage.Some? {
          model := model.(percentage := percentage.value);
        }
        if canAnalyse.Some? {
          model := model.(canAnalyse := canAnalyse.value);
        }
        if usedSamples.Some? {
          model := model.(modelSamples := usedSamples.value);
        }
        model := model.(lockedAt := None, lockedBy := None);
        models := models[key := model];
      }
    }

    /** ProviderEnrolmentViewSet.unlock: no model is NotFound, an unlocked
        model NotAcceptable, a token other than the holder PermissionDenied;
        only the holder's token clears both lock fields. */
    method Unlock(learners: map<string, int>, learnerId: string, provider: int, token: Option<string>)
      returns (r: UnlockOutcome)
      modifies this
      ensures r != Unlocked ==> models == old(models)
      ensures learnerId !in learners || (learners[learnerId], provider) !in old(models) <==> r == NotFound
      ensures r == NotAcceptable <==>
                learnerId in learners && (learners[learnerId], provider) in old(models) &&
                !IsLocked(old(models)[(learners[learnerId], provider)])
      ensures r == PermissionDenied <==>
                learnerId in learners && (learners[learnerId], provider) in old(models) &&
                IsLocked(old(models)[(learners[learnerId], provider)]) &&
                token != old(models)[(learners[learnerId], provider)].lockedBy
      ensures r == Unlocked ==>
                var key := (learners[learnerId], provider);
                models == old(models)[key := old(models)[key].(lockedAt := None, lockedBy := None)]
    {
      if learnerId !in learners || (learners[learnerId], provider) !in models {
        return NotFound;
      }
      var key := (learners[learnerId], provider);
      var model := models[key];
      if !IsLocked(model) {
        return NotAcceptable;
      }
      if token != model.lockedBy {
        return PermissionDenied;
      }
      models := models[key := model.(lockedAt := None, lockedBy := None)];
      r := Unlocked;
    }
  }
}
