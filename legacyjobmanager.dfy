/**
 * The earlier job registry (molequeue/jobmanager.cpp): the list of owned
 * jobs and two maps, one from the client's id and one from the MoleQueue id,
 * to the job holding that id. An id of 0 is never mapped when a job is
 * inserted.
 *
 * A Job pointer is a Handle into `store`; only the fields the registry
 * reads are kept. A change of ids re-keys the maps with JobIndex.Rekey.
 */
module LegacyJobManager {
  import opened Wrappers
  import opened IdTypes
  import JobStates
  import ListOps
  import opened JobIndex

  /** The fields of a job the registry reads and writes. */
  datatype JobRecord = JobRecord(clientId: IdType, moleQueueId: IdType, queueJobId: IdType, jobState: JobStates.JobState)

  function ClientIdOf(j: JobRecord): IdType {
    j.clientId
  }

  function MoleQueueIdOf(j: JobRecord): IdType {
    j.moleQueueId
  }

  datatype Signal =
    | JobAboutToBeAdded(job: Handle)
    | JobAdded(job: Handle)
    | JobAboutToBeRemoved(job: Handle)
    | JobRemoved(moleQueueId: IdType, job: Handle)
    | JobStateChanged(job: Handle, oldState: JobStates.JobState, newState: JobStates.JobState)
    | QueueIdChanged(job: Handle, queueId: IdType)

  /** An id map after insertJob: the job is added under its id unless the id is 0. */
  function MapUnlessZero(m: map<IdType, Handle>, id: IdType, h: Handle): (r: map<IdType, Handle>)
    ensures id != 0 ==> r == m[id := h]
    ensures id == 0 ==> r == m
  {
    if id != 0 then m[id := h] else m
  }

  /** The jobs of js whose state is `state`, in list order. */
  function JobsInState(js: seq<Handle>, store: map<Handle, JobRecord>, state: JobStates.JobState): (r: seq<Handle>)
    ensures forall h :: h in r <==> h in js && h in store && store[h].jobState == state
  {
    ListOps.Filter(js, h => h in store && store[h].jobState == state)
  }

  class JobManager {
    var jobs: seq<Handle>
    var store: map<Handle, JobRecord>
    var clientMap: map<IdType, Handle>
    var moleQueueMap: map<IdType, Handle>
    var signals: seq<Signal>

    /** Each owned job appears once in the list; both maps lead only to owned jobs holding that id. */
    ghost predicate Valid()
      reads this
    {
      ListOps.Distinct(jobs) &&
      (forall h :: h in store <==> h in jobs) &&
      Indexed(clientMap, store, ClientIdOf) &&
      Indexed(moleQueueMap, store, MoleQueueIdOf)
    }

    constructor()
      ensures Valid()
      ensures jobs == [] && store == map[] && clientMap == map[] && moleQueueMap == map[] && signals == []
    {
      jobs := [];
      store := map[];
      clientMap := map[];
      moleQueueMap := map[];
      signals := [];
    }

    /** lookupClientId: the job mapped under the client id, which holds that id; None for an absent id. */
    function LookupClientId(clientId: IdType): (r: Option<Handle>)
      reads this
      requires Valid()
      ensures r.Some? <==> clientId in clientMap
      ensures r.Some? ==> r.value in jobs && store[r.value].clientId == clientId
    {
      if clientId in clientMap then Some(clientMap[clientId]) else None
    }

    /** lookupMoleQueueId: the job mapped under the MoleQueue id, which holds that id; None for an absent id. */
    function LookupMoleQueueId(moleQueueId: IdType): (r: Option<Handle>)
      reads this
      requires Valid()
      ensures r.Some? <==> moleQueueId in moleQueueMap
      ensures r.Some? ==> r.value in jobs && store[r.value].moleQueueId == moleQueueId
    {
      if moleQueueId in moleQueueMap then Some(moleQueueMap[moleQueueId]) else None
    }

    /**
     * newJob (either overload) ending in insertJob: `job` is the new job as
     * the about-to-be-added hook leaves it. It is appended and mapped under
     * each of its ids that is not 0.
     */
    method NewJob(newHandle: Handle, job: JobRecord) returns (h: Handle)
      requires Valid() && newHandle !in store
      modifies this
      ensures Valid()
      ensures h == newHandle
      ensures jobs == old(jobs) + [h]
      ensures store == old(store)[h := job]
      ensures clientMap == MapUnlessZero(old(clientMap), job.clientId, h)
      ensures moleQueueMap == MapUnlessZero(old(moleQueueMap), job.moleQueueId, h)
      ensures signals == old(signals) + [JobAboutToBeAdded(h), JobAdded(h)]
    {
      h := newHandle;
      signals := signals + [JobAboutToBeAdded(h)];
      InsertJob(h, job);
    }

    /** insertJob: appends the job and maps each non-zero id to it. */
    method InsertJob(h: Handle, job: JobRecord)
      requires Valid() && h !in store
      modifies this
      ensures Valid()
      ensures jobs == old(jobs) + [h]
      ensures store == old(store)[h := job]
      ensures clientMap == MapUnlessZero(old(clientMap), job.clientId, h)
      ensures moleQueueMap == MapUnlessZero(old(moleQueueMap), job.moleQueueId, h)
      ensures signals == old(signals) + [JobAdded(h)]
    {
      InsertIndexed(clientMap, store, ClientIdOf, h, job, job.clientId != 0);
      InsertIndexed(moleQueueMap, store, MoleQueueIdOf, h, job, job.moleQueueId != 0);
      jobs := jobs + [h];
      store := store[h := job];
      clientMap := MapUnlessZero(clientMap, job.clientId, h);
      moleQueueMap := MapUnlessZero(moleQueueMap, job.moleQueueId, h);
      signals := signals + [JobAdded(h)];
    }

    /**
     * removeJob(const Job*): a null or foreign job changes nothing; an owned
     * job leaves the list, the store and both maps under its ids.
     */
    method RemoveJob(job: Option<Handle>)
      requires Valid()
      modifies this
      ensures Valid()
      ensures job.None? || job.value !in old(jobs) ==>
        jobs == old(jobs) && store == old(store) && clientMap == old(clientMap) &&
        moleQueueMap == old(moleQueueMap) && signals == old(signals)
      ensures job.Some? && job.value in old(jobs) ==>
        var r := old(store)[job.value];
        jobs == ListOps.RemoveFirst(old(jobs), job.value) &&
        (forall h :: h in jobs <==> h in old(jobs) && h != job.value) &&
        store == old(store) - {job.value} &&
        clientMap == old(clientMap) - {r.clientId} &&
        moleQueueMap == old(moleQueueMap) - {r.moleQueueId} &&
        signals == old(signals) + [JobAboutToBeRemoved(job.value), JobRemoved(r.moleQueueId, job.value)]
    {
      if job.None? || job.value !in jobs {
        return;
      }
      var h := job.value;
      signals := signals + [JobAboutToBeRemoved(h)];
      var r := store[h];
      ListOps.RemoveFirstDistinct(jobs, h);
      RemoveIndexed(clientMap, store, ClientIdOf, h);
      RemoveIndexed(moleQueueMap, store, MoleQueueIdOf, h);
      jobs := ListOps.RemoveFirst(jobs, h);
      clientMap := clientMap - {r.clientId};
      moleQueueMap := moleQueueMap - {r.moleQueueId};
      store := store - {h};
      signals := signals + [JobRemoved(r.moleQueueId, h)];
    }

    /** removeJob(IdType): removes the job mapped under the MoleQueue id, if any. */
    method RemoveJobById(moleQueueId: IdType)
      requires Valid()
      modifies this
      ensures Valid()
      ensures moleQueueMap == old(moleQueueMap) - {moleQueueId}
      ensures old(LookupMoleQueueId(moleQueueId)).None? ==>
        jobs == old(jobs) && store == old(store) && clientMap == old(clientMap)
      ensures old(LookupMoleQueueId(moleQueueId)).Some? ==>
        jobs == ListOps.RemoveFirst(old(jobs), old(LookupMoleQueueId(moleQueueId)).value)
    {
      var job := LookupMoleQueueId(moleQueueId);
      if job.Some? {
        RemoveJob(job);
      }
    }

    /** removeJobs(QList<IdType>): afterwards none of the ids is mapped. */
    method RemoveJobs(moleQueueIds: seq<IdType>)
      requires Valid()
      modifies this
      ensures Valid()
      ensures moleQueueMap.Keys == old(moleQueueMap).Keys - ListOps.Elements(moleQueueIds)
    {
      var i := 0;
      while i < |moleQueueIds|
        invariant 0 <= i <= |moleQueueIds|
        invariant Valid()
        invariant moleQueueMap.Keys == old(moleQueueMap).Keys - ListOps.Elements(moleQueueIds[..i])
      {
        RemoveJobById(moleQueueIds[i]);
        ListOps.ElementsSnoc(moleQueueIds, i);
        i := i + 1;
      }
      assert moleQueueIds[..i] == moleQueueIds;
    }

    /** jobsWithJobState: exactly the owned jobs in that state, in list order. */
    method JobsWithJobState(state: JobStates.JobState) returns (r: seq<Handle>)
      requires Valid()
      ensures r == JobsInState(jobs, store, state)
      ensures forall h :: h in r <==> h in jobs && store[h].jobState == state
    {
      r := [];
      for i := 0 to |jobs|
        invariant r == JobsInState(jobs[..i], store, state)
      {
        assert jobs[..i + 1][..i] == jobs[..i];
        if store[jobs[i]].jobState == state {
          r := r + [jobs[i]];
        }
      }
      assert jobs[..|jobs|] == jobs;
    }

    /**
     * The job takes new ids and jobIdsChanged runs: a foreign job is left
     * alone; an owned job is mapped under each new id, its old key in that
     * map dropped.
     */
    method SetJobIds(h: Handle, clientId: IdType, moleQueueId: IdType)
      requires Valid()
      modifies this
      ensures Valid()
      ensures h !in old(jobs) ==>
        store == old(store) && clientMap == old(clientMap) && moleQueueMap == old(moleQueueMap)
      ensures h in old(jobs) ==>
        store == old(store)[h := old(store)[h].(clientId := clientId, moleQueueId := moleQueueId)] &&
        clientMap == Rekey(old(clientMap), h, clientId) &&
        moleQueueMap == Rekey(old(moleQueueMap), h, moleQueueId) &&
        LookupClientId(clientId) == Some(h) && LookupMoleQueueId(moleQueueId) == Some(h)
      ensures jobs == old(jobs) && signals == old(signals)
    {
      if h !in jobs {
        return;
      }
      var withClient := store[h].(clientId := clientId);
      RekeyIndexed(clientMap, store, ClientIdOf, h, clientId, withClient);
      UpdateIndexed(moleQueueMap, store, MoleQueueIdOf, h, withClient);
      var store1 := store[h := withClient];
      var updated := withClient.(moleQueueId := moleQueueId);
      UpdateIndexed(Rekey(clientMap, h, clientId), store1, ClientIdOf, h, updated);
      RekeyIndexed(moleQueueMap, store1, MoleQueueIdOf, h, moleQueueId, updated);
      assert store1[h := updated] == store[h := updated];
      store := store[h := updated];
      clientMap := Rekey(clientMap, h, clientId);
      moleQueueMap := Rekey(moleQueueMap, h, moleQueueId);
    }

    /** updateJobState: an unknown id or an unchanged state is a no-op; otherwise the job takes the state and jobStateChanged is emitted. */
    method UpdateJobState(moleQueueId: IdType, newState: JobStates.JobState)
      requires Valid()
      modifies this
      ensures Valid()
      ensures jobs == old(jobs) && clientMap == old(clientMap) && moleQueueMap == old(moleQueueMap)
      ensures moleQueueId !in old(moleQueueMap) || old(store)[old(moleQueueMap)[moleQueueId]].jobState == newState ==>
        store == old(store) && signals == old(signals)
      ensures moleQueueId in old(moleQueueMap) && old(store)[old(moleQueueMap)[moleQueueId]].jobState != newState ==>
        var h := old(moleQueueMap)[moleQueueId];
        store == old(store)[h := old(store)[h].(jobState := newState)] &&
        signals == old(signals) + [JobStateChanged(h, old(store)[h].jobState, newState)]
    {
      var job := LookupMoleQueueId(moleQueueId);
      if job.None? {
        return;
      }
      var h := job.value;
      var oldState := store[h].jobState;
      if oldState == newState {
        return;
      }
      var updated := store[h].(jobState := newState);
      UpdateIndexed(clientMap, store, ClientIdOf, h, updated);
      UpdateIndexed(moleQueueMap, store, MoleQueueIdOf, h, updated);
      store := store[h := updated];
      signals := signals + [JobStateChanged(h, oldState, newState)];
    }

    /** updateQueueId: an unknown id or an unchanged queue id is a no-op; otherwise the job takes it and queueIdChanged is emitted. */
    method UpdateQueueId(moleQueueId: IdType, queueId: IdType)
      requires Valid()
      modifies this
      ensures Valid()
      ensures jobs == old(jobs) && clientMap == old(clientMap) && moleQueueMap == old(moleQueueMap)
      ensures moleQueueId !in old(moleQueueMap) || old(store)[old(moleQueueMap)[moleQueueId]].queueJobId == queueId ==>
        store == old(store) && signals == old(signals)
      ensures moleQueueId in old(moleQueueMap) && old(store)[old(moleQueueMap)[moleQueueId]].queueJobId != queueId ==>
        var h := old(moleQueueMap)[moleQueueId];
        store == old(store)[h := old(store)[h].(queueJobId := queueId)] &&
        signals == old(signals) + [QueueIdChanged(h, queueId)]
    {
      var job := LookupMoleQueueId(moleQueueId);
      if job.None? {
        return;
      }
      var h := job.value;
      if store[h].queueJobId == queueId {
        return;
      }
      var updated := store[h].(queueJobId := queueId);
      UpdateIndexed(clientMap, store, ClientIdOf, h, updated);
      UpdateIndexed(moleQueueMap, store, MoleQueueIdOf, h, updated);
      store := store[h := updated];
      signals := signals + [QueueIdChanged(h, queueId)];
    }
  }
}
