/**
 * The application's job registry (molequeue/app/jobmanager.cpp): the list of
 * every JobData it owns, in creation order, and the map from MoleQueue id to
 * the job holding that id.
 *
 * A JobData pointer is a Handle into `store`, which holds each owned job's
 * fields. The signals the registry emits are appended to `signals`. A
 * change of id re-keys the map with JobIndex.Rekey.
 */
module AppJobManager {
  import opened Wrappers
  import opened IdTypes
  import JobStates
  import opened JobDataModel
  import ListOps
  import opened JobIndex

  datatype Signal =
    | JobAboutToBeAdded(job: Handle, moleQueueId: IdType)
    | JobAdded(job: Handle)
    | JobAboutToBeRemoved(job: Handle)
    | JobRemoved(moleQueueId: IdType)
    | JobStateChanged(job: Handle, oldState: JobStates.JobState, newState: JobStates.JobState)
    | JobUpdated(job: Handle)

  /** The key a job is mapped under. */
  function MoleQueueIdOf(f: JobFields): IdType {
    f.moleQueueId
  }

  /** The jobs of js whose state is `state`, in list order. */
  function JobsInState(js: seq<Handle>, store: map<Handle, JobFields>, state: JobStates.JobState): (r: seq<Handle>)
    ensures forall h :: h in r <==> h in js && h in store && store[h].jobState == state
  {
    ListOps.Filter(js, h => h in store && store[h].jobState == state)
  }

  class JobManager {
    var jobs: seq<Handle>
    var store: map<Handle, JobFields>
    var moleQueueMap: map<IdType, Handle>
    var signals: seq<Signal>

    /** Each owned job appears once in the list, and the map leads only to owned jobs holding that id. */
    ghost predicate Valid()
      reads this
    {
      ListOps.Distinct(jobs) &&
      (forall h :: h in store <==> h in jobs) &&
      Indexed(moleQueueMap, store, MoleQueueIdOf)
    }

    constructor()
      ensures Valid()
      ensures jobs == [] && store == map[] && moleQueueMap == map[] && signals == []
    {
      jobs := [];
      store := map[];
      moleQueueMap := map[];
      signals := [];
    }

    /** lookupJobDataByMoleQueueId: the job mapped under id, which holds that id. */
    function Lookup(id: IdType): (r: Option<Handle>)
      reads this
      requires Valid()
      ensures r.Some? <==> id in moleQueueMap
      ensures r.Some? ==> r.value in jobs && store[r.value].moleQueueId == id
    {
      if id in moleQueueMap then Some(moleQueueMap[id]) else None
    }

    /** jobAt: the job at position i, or an invalid job outside the list. */
    function JobAt(i: int): (r: Option<Handle>)
      reads this
      ensures r.Some? <==> 0 <= i < |jobs|
      ensures r.Some? ==> r.value in jobs
    {
      if 0 <= i < |jobs| then Some(jobs[i]) else None
    }

    /** indexOf: the position of the job in the list, -1 for a null or foreign job. */
    function IndexOf(job: Option<Handle>): (i: int)
      reads this
      ensures -1 <= i < |jobs|
      ensures i == -1 <==> job.None? || job.value !in jobs
      ensures 0 <= i ==> jobs[i] == job.value
    {
      match job
      case None => -1
      case Some(h) => ListOps.IndexOf(jobs, h)
    }

    /** jobAt and indexOf are inverse on the owned jobs. */
    lemma PositionRoundTrip(i: int)
      requires Valid()
      ensures 0 <= i < |jobs| ==> IndexOf(JobAt(i)) == i
      ensures forall h :: h in jobs ==> JobAt(IndexOf(Some(h))) == Some(h)
    {
      if 0 <= i < |jobs| {
        var j := IndexOf(JobAt(i));
        assert jobs[j] == jobs[i];
      }
    }

    /**
     * newJob: a default job is appended. The about-to-be-added hook may give
     * it an id (assignedId, InvalidId when it does not); it is then mapped
     * exactly when that id is not InvalidId.
     */
    method NewJob(newHandle: Handle, assignedId: IdType) returns (h: Handle)
      requires Valid() && newHandle !in store
      modifies this
      ensures Valid()
      ensures h == newHandle
      ensures jobs == old(jobs) + [h]
      ensures store == old(store)[h := Defaults.(moleQueueId := assignedId)]
      ensures moleQueueMap == if assignedId != InvalidId then old(moleQueueMap)[assignedId := h] else old(moleQueueMap)
      ensures signals == old(signals) + [JobAboutToBeAdded(h, InvalidId), JobAdded(h)]
    {
      h := newHandle;
      Append(h, Defaults, assignedId);
    }

    /**
     * newJob(jobState): the job takes the given fields with its id reset to
     * InvalidId before the about-to-be-added hook runs.
     */
    method NewJobFromState(fields: JobFields, newHandle: Handle, assignedId: IdType) returns (h: Handle)
      requires Valid() && newHandle !in store
      modifies this
      ensures Valid()
      ensures h == newHandle
      ensures jobs == old(jobs) + [h]
      ensures store == old(store)[h := fields.(moleQueueId := assignedId)]
      ensures moleQueueMap == if assignedId != InvalidId then old(moleQueueMap)[assignedId := h] else old(moleQueueMap)
      ensures signals == old(signals) + [JobAboutToBeAdded(h, InvalidId), JobAdded(h)]
    {
      h := newHandle;
      Append(h, fields.(moleQueueId := InvalidId), assignedId);
    }

    /** The shared tail of both newJob overloads, ending in insertJobData. */
    method Append(h: Handle, f: JobFields, assignedId: IdType)
      requires Valid() && h !in store
      modifies this
      ensures Valid()
      ensures jobs == old(jobs) + [h]
      ensures store == old(store)[h := f.(moleQueueId := assignedId)]
      ensures moleQueueMap == if assignedId != InvalidId then old(moleQueueMap)[assignedId := h] else old(moleQueueMap)
      ensures signals == old(signals) + [JobAboutToBeAdded(h, f.moleQueueId), JobAdded(h)]
    {
      InsertIndexed(moleQueueMap, store, MoleQueueIdOf, h, f.(moleQueueId := assignedId), assignedId != InvalidId);
      jobs := jobs + [h];
      signals := signals + [JobAboutToBeAdded(h, f.moleQueueId)];
      store := store[h := f.(moleQueueId := assignedId)];
      if assignedId != InvalidId {
        moleQueueMap := moleQueueMap[assignedId := h];
      }
      signals := signals + [JobAdded(h)];
    }

    /**
     * removeJob(JobData*): a null or foreign job changes nothing; an owned
     * job leaves the list, the store and the map under its id.
     */
    method RemoveJob(job: Option<Handle>)
      requires Valid()
      modifies this
      ensures Valid()
      ensures job.None? || job.value !in old(jobs) ==>
        jobs == old(jobs) && store == old(store) && moleQueueMap == old(moleQueueMap) && signals == old(signals)
      ensures job.Some? && job.value in old(jobs) ==>
        var id := old(store)[job.value].moleQueueId;
        jobs == ListOps.RemoveFirst(old(jobs), job.value) &&
        (forall h :: h in jobs <==> h in old(jobs) && h != job.value) &&
        store == old(store) - {job.value} &&
        moleQueueMap == old(moleQueueMap) - {id} &&
        signals == old(signals) + [JobAboutToBeRemoved(job.value), JobRemoved(id)]
    {
      if job.None? || job.value !in jobs {
        return;
      }
      var h := job.value;
      signals := signals + [JobAboutToBeRemoved(h)];
      var id := store[h].moleQueueId;
      ListOps.RemoveFirstDistinct(jobs, h);
      RemoveIndexed(moleQueueMap, store, MoleQueueIdOf, h);
      jobs := ListOps.RemoveFirst(jobs, h);
      moleQueueMap := moleQueueMap - {id};
      store := store - {h};
      signals := signals + [JobRemoved(id)];
    }

    /** removeJob(IdType): removes the job mapped under id, if any; afterwards nothing is mapped under id. */
    method RemoveJobById(id: IdType)
      requires Valid()
      modifies this
      ensures Valid()
      ensures id !in moleQueueMap
      ensures old(Lookup(id)).None? ==> jobs == old(jobs) && store == old(store) && moleQueueMap == old(moleQueueMap)
      ensures old(Lookup(id)).Some? ==> jobs == ListOps.RemoveFirst(old(jobs), old(Lookup(id)).value)
      ensures moleQueueMap == old(moleQueueMap) - {id}
    {
      var job := Lookup(id);
      if job.Some? {
        RemoveJob(job);
      }
    }

    /** removeJobs(QList<IdType>): after it, none of the ids is mapped. */
    method RemoveJobs(ids: seq<IdType>)
      requires Valid()
      modifies this
      ensures Valid()
      ensures forall id :: id in ids ==> id !in moleQueueMap
      ensures moleQueueMap.Keys == old(moleQueueMap).Keys - ListOps.Elements(ids)
    {
      var i := 0;
      while i < |ids|
        invariant 0 <= i <= |ids|
        invariant Valid()
        invariant moleQueueMap.Keys == old(moleQueueMap).Keys - ListOps.Elements(ids[..i])
      {
        RemoveJobById(ids[i]);
        ListOps.ElementsSnoc(ids, i);
        i := i + 1;
      }
      assert ids[..i] == ids;
    }

    /** jobsWithJobState: exactly the owned jobs in that state, in list order. */
    method JobsWithJobState(state: JobStates.JobState) returns (r: seq<Handle>)
      requires Valid()
      ensures r == JobsInState(jobs, store, state)
      ensures forall h :: h in r <==> h in jobs && store[h].jobState == state
    {
      r := [];
      for i := 0 to |jobs|
        invariant r == JobsInState(jobs[..i], store, state)
      {
        assert jobs[..i + 1][..i] == jobs[..i];
        if store[jobs[i]].jobState == state {
          r := r + [jobs[i]];
        }
      }
      assert jobs[..|jobs|] == jobs;
    }

    /**
     * Job::setMoleQueueId followed by moleQueueIdChanged: a foreign job is
     * left alone; an owned job takes the id and is mapped under it, its old
     * key dropped unless it is already mapped there.
     */
    method SetMoleQueueId(h: Handle, newId: IdType)
      requires Valid()
      modifies this
      ensures Valid()
      ensures h !in old(jobs) ==> store == old(store) && moleQueueMap == old(moleQueueMap)
      ensures h in old(jobs) ==>
        store == old(store)[h := old(store)[h].(moleQueueId := newId)] &&
        moleQueueMap == Rekey(old(moleQueueMap), h, newId) &&
        Lookup(newId) == Some(h)
      ensures jobs == old(jobs) && signals == old(signals)
    {
      if h !in jobs {
        return;
      }
      RekeyIndexed(moleQueueMap, store, MoleQueueIdOf, h, newId, store[h].(moleQueueId := newId));
      store := store[h := store[h].(moleQueueId := newId)];
      moleQueueMap := Rekey(moleQueueMap, h, newId);
    }

    /**
     * Writing an owned job's data through its Job reference (setFromHash,
     * the directory setters) without changing its id: only that job changes.
     */
    method UpdateJob(h: Handle, f: JobFields)
      requires Valid() && h in store && f.moleQueueId == store[h].moleQueueId
      modifies this
      ensures Valid()
      ensures store == old(store)[h := f]
      ensures jobs == old(jobs) && moleQueueMap == old(moleQueueMap) && signals == old(signals)
    {
      UpdateIndexed(moleQueueMap, store, MoleQueueIdOf, h, f);
      store := store[h := f];
    }

    /**
     * setJobState: an unknown id or an unchanged state is a no-op; otherwise
     * the job takes the state and jobStateChanged (and with it jobUpdated)
     * is emitted.
     */
    method SetJobState(id: IdType, newState: JobStates.JobState)
      requires Valid()
      modifies this
      ensures Valid()
      ensures jobs == old(jobs) && moleQueueMap == old(moleQueueMap)
      ensures id !in old(moleQueueMap) || old(store)[old(moleQueueMap)[id]].jobState == newState ==>
        store == old(store) && signals == old(signals)
      ensures id in old(moleQueueMap) && old(store)[old(moleQueueMap)[id]].jobState != newState ==>
        var h := old(moleQueueMap)[id];
        store == old(store)[h := old(store)[h].(jobState := newState)] &&
        signals == old(signals) + [JobStateChanged(h, old(store)[h].jobState, newState), JobUpdated(h)]
    {
      var job := Lookup(id);
      if job.None? {
        return;
      }
      var h := job.value;
      var oldState := store[h].jobState;
      if oldState == newState {
        return;
      }
      UpdateIndexed(moleQueueMap, store, MoleQueueIdOf, h, store[h].(jobState := newState));
      store := store[h := store[h].(jobState := newState)];
      signals := signals + [JobStateChanged(h, oldState, newState), JobUpdated(h)];
    }

    /** setJobQueueId: an unknown id or an unchanged queue id is a no-op; otherwise the job takes it and jobUpdated is emitted. */
    method SetJobQueueId(id: IdType, queueId: IdType)
      requires Valid()
      modifies this
      ensures Valid()
      ensures jobs == old(jobs) && moleQueueMap == old(moleQueueMap)
      ensures id !in old(moleQueueMap) || old(store)[old(moleQueueMap)[id]].queueId == queueId ==>
        store == old(store) && signals == old(signals)
      ensures id in old(moleQueueMap) && old(store)[old(moleQueueMap)[id]].queueId != queueId ==>
        var h := old(moleQueueMap)[id];
        store == old(store)[h := old(store)[h].(queueId := queueId)] &&
        signals == old(signals) + [JobUpdated(h)]
    {
      var job := Lookup(id);
      if job.None? {
        return;
      }
      var h := job.value;
      if store[h].queueId == queueId {
        return;
      }
      UpdateIndexed(moleQueueMap, store, MoleQueueIdOf, h, store[h].(queueId := queueId));
      store := store[h := store[h].(queueId := queueId)];
      signals := signals + [JobUpdated(h)];
    }
  }
}
