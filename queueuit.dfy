/**
 * The queue that reaches the ezHPC UIT service (molequeue/app/queues/queueuit.cpp):
 * how a job event's status text becomes a job state, what is done with the
 * job events a status request returns, the guard on that request, the
 * finalizing of a job that left the queue, and the queue's own settings.
 *
 * The SOAP requests themselves are not modelled: a status request is the
 * value RequestQueueUpdate returns, and its answer is the list of events
 * HandleQueueUpdate is given. The job manager is reduced to the map
 * `states` from the MoleQueue id of every valid job to its current state;
 * whether the queue can reach its server is `hasServer`. Job state changes
 * go to `stateChanges`, and the jobs whose output is fetched
 * (finalizeJobCopyFromServer) to `finalizing`.
 */
module QueueUit {
  import opened Wrappers
  import opened IdTypes
  import opened TextOps
  import opened JsonValue
  import J = JobStates
  import ListOps
  import Queues
  import RemoteSsh

  /** One job event of the UIT answer: the job it is about and its status text. */
  datatype JobEvent = JobEvent(jobId: IdType, statusText: string)

  // ---- the status text ----

  /** A character padded with white space trims to that character alone. */
  lemma TrimmedAround(pre: string, c: char, post: string)
    requires AllSpace(pre) && AllSpace(post) && !IsSpace(c)
    ensures Trimmed(pre + [c] + post) == [c]
  {
    assert pre + [c] + post == pre + ([c] + post);
    TrimStartOf(pre, [c] + post);
    TrimEndOf([c], post);
  }

  /** QChar::toLower on the ASCII letters. */
  function Lower(c: char): (r: char)
    ensures 'A' <= c <= 'Z' ==> r as int == c as int + 32
    ensures !('A' <= c <= 'Z') ==> r == c
  {
    if 'A' <= c <= 'Z' then (c as int + 32) as char else c
  }

  /**
   * jobEventToJobState: a status that is not one character once trimmed is
   * an Error; r, e and c (in either case) mean running, q, h, t, w and s
   * queued, and any other character Unknown.
   */
  function EventState(statusText: string): J.JobState {
    var status := Trimmed(statusText);
    if |status| != 1 then J.Error else LetterState(status[0])
  }

  /** The state a one-letter status names. */
  function LetterState(letter: char): J.JobState {
    var c := Lower(letter);
    if c == 'r' || c == 'e' || c == 'c' then J.RunningRemote
    else if c == 'q' || c == 'h' || c == 't' || c == 'w' || c == 's' then J.QueuedRemote
    else J.Unknown
  }

  /** A status letter names the same state in either case. */
  lemma LetterStateLower(c: char)
    ensures LetterState(Lower(c)) == LetterState(c)
  {
    assert Lower(Lower(c)) == Lower(c);
  }

  /** A status that trims to one letter names that letter's state. */
  lemma EventStateOfTrimmed(statusText: string, c: char)
    requires Trimmed(statusText) == [c]
    ensures EventState(statusText) == LetterState(c)
  {
  }

  /** A lone letter that is not white space trims to itself, in either case. */
  lemma TrimmedLowerLetter(c: char)
    requires !IsSpace(c)
    ensures !IsSpace(Lower(c)) && Trimmed([Lower(c)]) == [Lower(c)]
  {
    TrimmedAround([], Lower(c), []);
    assert [] + [Lower(c)] + [] == [Lower(c)];
  }

  /** The table jobEventToJobState follows. */
  lemma EventStateTable(statusText: string)
    ensures var state := EventState(statusText); var status := Trimmed(statusText);
      && (state == J.Error <==> |status| != 1)
      && (state == J.RunningRemote <==> |status| == 1 && Lower(status[0]) in {'r', 'e', 'c'})
      && (state == J.QueuedRemote <==> |status| == 1 && Lower(status[0]) in {'q', 'h', 't', 'w', 's'})
      && state in {J.Error, J.RunningRemote, J.QueuedRemote, J.Unknown}
  {
  }

  /** White space around the status letter, and its case, make no difference. */
  lemma EventStatePadded(pre: string, c: char, post: string)
    requires AllSpace(pre) && AllSpace(post) && !IsSpace(c)
    ensures EventState(pre + [c] + post) == EventState([Lower(c)])
  {
    TrimmedAround(pre, c, post);
    EventStateOfTrimmed(pre + [c] + post, c);
    TrimmedLowerLetter(c);
    EventStateOfTrimmed([Lower(c)], Lower(c));
    LetterStateLower(c);
  }

  // ---- the events of one job ----

  /** The events about one job, in the order they came. */
  function EventsOf(events: seq<JobEvent>, queueId: IdType): seq<JobEvent> {
    if events == [] then []
    else
      EventsOf(events[..|events| - 1], queueId)
        + (if events[|events| - 1].jobId == queueId then [events[|events| - 1]] else [])
  }

  /** A job has events exactly when some event is about it. */
  lemma {:induction false} EventsOfEmpty(events: seq<JobEvent>, queueId: IdType)
    ensures EventsOf(events, queueId) == [] <==> forall i :: 0 <= i < |events| ==> events[i].jobId != queueId
  {
    if events != [] {
      var init := events[..|events| - 1];
      EventsOfEmpty(init, queueId);
      assert forall i :: 0 <= i < |init| ==> init[i] == events[i];
    }
  }

  /** The last event about a job is the latest event about it. */
  lemma {:induction false} LastEventIsLatest(events: seq<JobEvent>, queueId: IdType, i: nat)
    requires i < |events| && events[i].jobId == queueId
    requires forall j :: i < j < |events| ==> events[j].jobId != queueId
    ensures EventsOf(events, queueId) != []
    ensures var evs := EventsOf(events, queueId); evs[|evs| - 1] == events[i]
  {
    if i < |events| - 1 {
      var init := events[..|events| - 1];
      assert init[i] == events[i];
      LastEventIsLatest(init, queueId, i);
    }
  }

  /** The ids the events are about. */
  function EventIds(events: seq<JobEvent>): set<IdType> {
    set i | 0 <= i < |events| :: events[i].jobId
  }

  /** eventMap[queueId]: the job's events, or none. */
  function EventsIn(eventMap: map<IdType, seq<JobEvent>>, queueId: IdType): seq<JobEvent> {
    if queueId in eventMap then eventMap[queueId] else []
  }

  /** One more event adds its id. */
  lemma EventIdsSnoc(events: seq<JobEvent>, i: nat)
    requires i < |events|
    ensures EventIds(events[..i + 1]) == EventIds(events[..i]) + {events[i].jobId}
  {
    assert forall k :: 0 <= k < i ==> events[..i + 1][k] == events[..i][k];
    assert events[..i + 1][i] == events[i];
  }

  /** One more event is appended to the events of its own job only. */
  lemma EventsOfSnoc(events: seq<JobEvent>, i: nat)
    requires i < |events|
    ensures forall q ::
      EventsOf(events[..i + 1], q) == EventsOf(events[..i], q) + (if events[i].jobId == q then [events[i]] else [])
  {
    assert events[..i + 1][..i] == events[..i];
  }

  /** No event is about an id that is not among the event ids. */
  lemma EventsOfUnseen(events: seq<JobEvent>, q: IdType)
    requires q !in EventIds(events)
    ensures EventsOf(events, q) == []
  {
    EventsOfEmpty(events, q);
  }

  /**
   * The first loop of handleQueueUpdate: the events sorted into a map from
   * job id to that job's events, in arrival order.
   */
  method GroupEvents(events: seq<JobEvent>) returns (eventMap: map<IdType, seq<JobEvent>>)
    ensures eventMap.Keys == EventIds(events)
    ensures forall q :: EventsIn(eventMap, q) == EventsOf(events, q)
  {
    eventMap := map[];
    var i := 0;
    while i < |events|
      invariant 0 <= i <= |events|
      invariant eventMap.Keys == EventIds(events[..i])
      invariant forall q :: EventsIn(eventMap, q) == EventsOf(events[..i], q)
    {
      var event := events[i];
      EventIdsSnoc(events, i);
      EventsOfSnoc(events, i);
      // QMap::operator[] starts a missing job with no events.
      var grouped := eventMap[event.jobId := EventsIn(eventMap, event.jobId) + [event]];
      forall q ensures EventsIn(grouped, q) == EventsOf(events[..i + 1], q) {
        if q != event.jobId {
          assert EventsIn(grouped, q) == EventsIn(eventMap, q);
        }
      }
      eventMap := grouped;
      i := i + 1;
    }
    assert events[..|events|] == events;
  }

  // ---- the answer to a status request ----

  /** Where handleQueueUpdate's second loop stands: the job table, the jobs' states, the changes made and the jobs finalized. */
  datatype Pass = Pass(jobs: map<IdType, IdType>, states: map<IdType, J.JobState>,
                       changes: seq<(IdType, J.JobState)>, finals: seq<IdType>)

  /**
   * One step of the loop, for one queue id: an untracked id or an invalid
   * job is skipped; a job without events has left the queue and is
   * finalized; otherwise the job takes the state of its last event, when
   * that differs from its state.
   */
  function Visit(p: Pass, queueId: IdType, events: seq<JobEvent>): Pass {
    var m := RemoteSsh.Tracked(p.jobs, queueId);
    if m == InvalidId || m !in p.states then p
    else
      var evs := EventsOf(events, queueId);
      if evs == [] then Pass(p.jobs - {queueId}, p.states, p.changes, p.finals + [m])
      else
        var state := EventState(evs[|evs| - 1].statusText);
        if state == p.states[m] then p
        else Pass(p.jobs, p.states[m := state], p.changes + [(m, state)], p.finals)
  }

  function Visits(p: Pass, queueIds: seq<IdType>, events: seq<JobEvent>): Pass {
    if queueIds == [] then p
    else Visit(Visits(p, queueIds[..|queueIds| - 1], events), queueIds[|queueIds| - 1], events)
  }

  /** A tracked id of a valid job with no events: the one beginFinalizeJob removes. */
  predicate Leaves(jobs: map<IdType, IdType>, valid: set<IdType>, events: seq<JobEvent>, queueId: IdType) {
    var m := RemoteSsh.Tracked(jobs, queueId);
    m != InvalidId && m in valid && EventsOf(events, queueId) == []
  }

  /**
   * The whole of handleQueueUpdate: without a server nothing changes;
   * otherwise every tracked id is visited in ascending order.
   */
  function QueueUpdate(jobs: map<IdType, IdType>, states: map<IdType, J.JobState>, hasServer: bool,
                       events: seq<JobEvent>): Pass {
    if !hasServer then Pass(jobs, states, [], [])
    else Visits(Pass(jobs, states, [], []), RemoteSsh.SortedIds(jobs.Keys), events)
  }

  /** One visit: the valid jobs stay; a leaving id is dropped and its job finalized; nothing else is. */
  lemma VisitStep(p: Pass, q: IdType, events: seq<JobEvent>)
    ensures var o := Visit(p, q, events); var leaves := Leaves(p.jobs, p.states.Keys, events, q);
      && o.states.Keys == p.states.Keys
      && o.jobs == (if leaves then p.jobs - {q} else p.jobs)
      && o.finals == (if leaves then p.finals + [RemoteSsh.Tracked(p.jobs, q)] else p.finals)
  {
    var tracked := RemoteSsh.Tracked(p.jobs, q);
    if tracked == InvalidId || tracked !in p.states {
      VisitSkipping(p, q, events);
    } else if EventsOf(events, q) == [] {
      VisitLeaving(p, q, events);
    } else {
      VisitWithEvents(p, q, events);
    }
  }

  /** The loop never adds or drops a job the job manager knows. */
  lemma {:induction false} VisitsKeepValid(p: Pass, queueIds: seq<IdType>, events: seq<JobEvent>)
    ensures Visits(p, queueIds, events).states.Keys == p.states.Keys
    decreases |queueIds|
  {
    if queueIds != [] {
      VisitsKeepValid(p, queueIds[..|queueIds| - 1], events);
      VisitStep(Visits(p, queueIds[..|queueIds| - 1], events), queueIds[|queueIds| - 1], events);
    }
  }

  /** The ids among `queueIds` that leave. */
  function Gone(p: Pass, queueIds: seq<IdType>, events: seq<JobEvent>): set<IdType> {
    set q | q in queueIds && Leaves(p.jobs, p.states.Keys, events, q)
  }

  /** One more id adds that id to the ids that leave exactly when it leaves. */
  lemma GoneSnoc(p: Pass, queueIds: seq<IdType>, events: seq<JobEvent>)
    requires queueIds != []
    ensures var last := queueIds[|queueIds| - 1];
      Gone(p, queueIds, events)
        == Gone(p, queueIds[..|queueIds| - 1], events) + (if Leaves(p.jobs, p.states.Keys, events, last) then {last} else {})
  {
    var init := queueIds[..|queueIds| - 1];
    assert forall q :: q in queueIds <==> q in init || q == queueIds[|queueIds| - 1];
  }

  /** Removing other ids from the job table does not change whether an id leaves. */
  lemma LeavesAfterRemoval(jobs: map<IdType, IdType>, removed: set<IdType>, valid: set<IdType>, events: seq<JobEvent>, q: IdType)
    requires q !in removed
    ensures Leaves(jobs - removed, valid, events, q) == Leaves(jobs, valid, events, q)
  {
    assert RemoteSsh.Tracked(jobs - removed, q) == RemoteSsh.Tracked(jobs, q);
  }

  /** Over distinct ids, the loop removes from the job table exactly the ids that leave. */
  lemma {:induction false} VisitsJobs(p: Pass, queueIds: seq<IdType>, events: seq<JobEvent>)
    requires ListOps.Distinct(queueIds)
    ensures Visits(p, queueIds, events).jobs == p.jobs - Gone(p, queueIds, events)
    decreases |queueIds|
  {
    if queueIds != [] {
      var init := queueIds[..|queueIds| - 1];
      var last := queueIds[|queueIds| - 1];
      assert ListOps.Distinct(init);
      VisitsJobs(p, init, events);
      VisitsKeepValid(p, init, events);
      var before := Visits(p, init, events);
      VisitStep(before, last, events);
      assert last !in init;
      LeavesAfterRemoval(p.jobs, Gone(p, init, events), p.states.Keys, events, last);
      GoneSnoc(p, queueIds, events);
    }
  }

  /** Over distinct ids, the loop keeps every finalized job and finalizes the job of each id that leaves. */
  lemma {:induction false} VisitsFinals(p: Pass, queueIds: seq<IdType>, events: seq<JobEvent>)
    requires ListOps.Distinct(queueIds)
    ensures var o := Visits(p, queueIds, events);
      && (forall x :: x in p.finals ==> x in o.finals)
      && (forall q :: q in queueIds && Leaves(p.jobs, p.states.Keys, events, q) ==> p.jobs[q] in o.finals)
    decreases |queueIds|
  {
    if queueIds != [] {
      var init := queueIds[..|queueIds| - 1];
      var last := queueIds[|queueIds| - 1];
      assert ListOps.Distinct(init);
      VisitsFinals(p, init, events);
      VisitsJobs(p, init, events);
      VisitsKeepValid(p, init, events);
      var before := Visits(p, init, events);
      VisitStep(before, last, events);
      assert last !in init;
      assert RemoteSsh.Tracked(before.jobs, last) == RemoteSsh.Tracked(p.jobs, last);
    }
  }

  /**
   * A tracked job the job manager knows is finalized and stops being
   * tracked when no event is about it, and stays tracked when some event is.
   */
  lemma LeftJobsFinalized(jobs: map<IdType, IdType>, states: map<IdType, J.JobState>, events: seq<JobEvent>, q: IdType)
    requires q in jobs && jobs[q] != InvalidId && jobs[q] in states
    ensures var o := QueueUpdate(jobs, states, true, events);
      && ((forall i :: 0 <= i < |events| ==> events[i].jobId != q) ==> q !in o.jobs && jobs[q] in o.finals)
      && ((exists i :: 0 <= i < |events| && events[i].jobId == q) ==> q in o.jobs && o.jobs[q] == jobs[q])
  {
    var ids := RemoteSsh.SortedIds(jobs.Keys);
    assert ListOps.Distinct(ids);
    VisitsJobs(Pass(jobs, states, [], []), ids, events);
    VisitsFinals(Pass(jobs, states, [], []), ids, events);
    EventsOfEmpty(events, q);
  }

  /**
   * A job tracked under one queue id only, with events, ends in the state
   * of its last event.
   */
  lemma {:induction false} StateFromLastEvent(p: Pass, queueIds: seq<IdType>, events: seq<JobEvent>, q: IdType)
    requires ListOps.Distinct(queueIds) && q in queueIds
    requires q in p.jobs && p.jobs[q] != InvalidId && p.jobs[q] in p.states
    requires forall k :: k in p.jobs && k != q ==> p.jobs[k] != p.jobs[q]
    requires EventsOf(events, q) != []
    ensures var o := Visits(p, queueIds, events); var evs := EventsOf(events, q);
      p.jobs[q] in o.states && o.states[p.jobs[q]] == EventState(evs[|evs| - 1].statusText)
    decreases |queueIds|
  {
    var init := queueIds[..|queueIds| - 1];
    var last := queueIds[|queueIds| - 1];
    assert ListOps.Distinct(init);
    VisitsJobs(p, init, events);
    VisitsKeepValid(p, init, events);
    var before := Visits(p, init, events);
    assert Visits(p, queueIds, events) == Visit(before, last, events);
    if last == q {
      assert q !in init;
      assert q in before.jobs && before.jobs[q] == p.jobs[q];
      VisitSetsState(before, q, events);
    } else {
      assert q in init;
      StateFromLastEvent(p, init, events, q);
      assert RemoteSsh.Tracked(before.jobs, last) != p.jobs[q];
      VisitKeepsState(before, last, events, p.jobs[q]);
    }
  }

  /** Visiting a job's own queue id gives the job the state of its last event. */
  lemma VisitSetsState(p: Pass, q: IdType, events: seq<JobEvent>)
    requires q in p.jobs && p.jobs[q] != InvalidId && p.jobs[q] in p.states && EventsOf(events, q) != []
    ensures var evs := EventsOf(events, q);
      Visit(p, q, events).states == p.states[p.jobs[q] := EventState(evs[|evs| - 1].statusText)]
  {
  }

  /** Visiting another queue id leaves a job's state alone. */
  lemma VisitKeepsState(p: Pass, k: IdType, events: seq<JobEvent>, m: IdType)
    requires RemoteSsh.Tracked(p.jobs, k) != m && m in p.states
    ensures m in Visit(p, k, events).states && Visit(p, k, events).states[m] == p.states[m]
  {
    var tracked := RemoteSsh.Tracked(p.jobs, k);
    if tracked == InvalidId || tracked !in p.states {
      VisitSkipping(p, k, events);
    } else if EventsOf(events, k) == [] {
      VisitLeaving(p, k, events);
    } else {
      VisitWithEvents(p, k, events);
    }
  }

  /** The job's state after the whole update, for a job tracked under one queue id. */
  lemma UpdatedFromLastEvent(jobs: map<IdType, IdType>, states: map<IdType, J.JobState>, events: seq<JobEvent>, q: IdType, i: nat)
    requires q in jobs && jobs[q] != InvalidId && jobs[q] in states
    requires forall k :: k in jobs && k != q ==> jobs[k] != jobs[q]
    requires i < |events| && events[i].jobId == q && forall j :: i < j < |events| ==> events[j].jobId != q
    ensures var o := QueueUpdate(jobs, states, true, events);
      jobs[q] in o.states && o.states[jobs[q]] == EventState(events[i].statusText)
  {
    var ids := RemoteSsh.SortedIds(jobs.Keys);
    assert ListOps.Distinct(ids);
    LastEventIsLatest(events, q, i);
    StateFromLastEvent(Pass(jobs, states, [], []), ids, events, q);
  }

  /** The loop over a longer prefix of ids is one more visit. */
  lemma VisitsSnoc(p: Pass, queueIds: seq<IdType>, i: nat, events: seq<JobEvent>)
    requires i < |queueIds|
    ensures Visits(p, queueIds[..i + 1], events) == Visit(Visits(p, queueIds[..i], events), queueIds[i], events)
  {
    assert queueIds[..i + 1][..i] == queueIds[..i];
  }

  /** An untracked id or a job the job manager does not know: the visit changes nothing. */
  lemma VisitSkipping(p: Pass, q: IdType, events: seq<JobEvent>)
    requires RemoteSsh.Tracked(p.jobs, q) == InvalidId || RemoteSsh.Tracked(p.jobs, q) !in p.states
    ensures Visit(p, q, events) == p
  {
  }

  /** A valid job without events: the visit drops its id and finalizes it. */
  lemma VisitLeaving(p: Pass, q: IdType, events: seq<JobEvent>)
    requires RemoteSsh.Tracked(p.jobs, q) != InvalidId && RemoteSsh.Tracked(p.jobs, q) in p.states
    requires EventsOf(events, q) == []
    ensures Visit(p, q, events) == Pass(p.jobs - {q}, p.states, p.changes, p.finals + [p.jobs[q]])
  {
  }

  /** A valid job with events: the visit records the state of the last one when it is new. */
  lemma VisitWithEvents(p: Pass, q: IdType, events: seq<JobEvent>)
    requires RemoteSsh.Tracked(p.jobs, q) != InvalidId && RemoteSsh.Tracked(p.jobs, q) in p.states
    requires EventsOf(events, q) != []
    ensures var m := p.jobs[q]; var evs := EventsOf(events, q); var state := EventState(evs[|evs| - 1].statusText);
      Visit(p, q, events) == if state == p.states[m] then p
        else Pass(p.jobs, p.states[m := state], p.changes + [(m, state)], p.finals)
  {
  }

  /**
   * The body of handleQueueUpdate's second loop for one queue id, given the
   * events grouped under that id.
   */
  method VisitJob(p: Pass, queueId: IdType, jobEvents: seq<JobEvent>, ghost events: seq<JobEvent>) returns (o: Pass)
    requires jobEvents == EventsOf(events, queueId)
    ensures o == Visit(p, queueId, events)
  {
    var moleQueueId := RemoteSsh.Tracked(p.jobs, queueId);
    if moleQueueId == InvalidId || moleQueueId !in p.states {
      VisitSkipping(p, queueId, events);
      return p;
    }
    if jobEvents == [] {
      VisitLeaving(p, queueId, events);
      return Pass(p.jobs - {queueId}, p.states, p.changes, p.finals + [moleQueueId]);
    }
    var state := EventState(jobEvents[|jobEvents| - 1].statusText);
    VisitWithEvents(p, queueId, events);
    o := p;
    if state != p.states[moleQueueId] {
      o := Pass(p.jobs, p.states[moleQueueId := state], p.changes + [(moleQueueId, state)], p.finals);
    }
  }

  /**
   * handleQueueUpdate's second loop: every queue id in turn; without a
   * server the loop gives up at the first id mapped to a job.
   */
  method VisitAll(start: Pass, queueIds: seq<IdType>, eventMap: map<IdType, seq<JobEvent>>, hasServer: bool,
                  ghost events: seq<JobEvent>)
    returns (aborted: bool, o: Pass)
    requires forall q :: EventsIn(eventMap, q) == EventsOf(events, q)
    ensures aborted ==> !hasServer
    ensures aborted || !hasServer ==> o == start
    ensures hasServer ==> o == Visits(start, queueIds, events)
  {
    var p := start;
    var i := 0;
    while i < |queueIds|
      invariant 0 <= i <= |queueIds|
      invariant hasServer ==> p == Visits(start, queueIds[..i], events)
      invariant !hasServer ==> p == start
    {
      var queueId := queueIds[i];
      if RemoteSsh.Tracked(p.jobs, queueId) != InvalidId && !hasServer {
        return true, start;
      }
      if !hasServer {
        VisitSkipping(p, queueId, events);
      }
      p := VisitJob(p, queueId, EventsIn(eventMap, queueId), events);
      VisitsSnoc(start, queueIds, i, events);
      i := i + 1;
    }
    assert queueIds[..|queueIds|] == queueIds;
    return false, p;
  }

  /**
   * The loops of handleQueueUpdate on the queue's job table: the events are
   * grouped by job, then every tracked id is visited in ascending order.
   */
  method ScanEvents(jobs: map<IdType, IdType>, states: map<IdType, J.JobState>, hasServer: bool, events: seq<JobEvent>)
    returns (aborted: bool, o: Pass)
    ensures aborted ==> !hasServer
    ensures o == QueueUpdate(jobs, states, hasServer, events)
  {
    var eventMap := GroupEvents(events);
    aborted, o := VisitAll(Pass(jobs, states, [], []), RemoteSsh.SortedIds(jobs.Keys), eventMap, hasServer, events);
  }

  // ---- settings ----

  /** The hostID setting: toLongLong of the text, 0 when it does not read as one. */
  function ReadHostId(s: string): (id: int)
    ensures Int64Min <= id < Int64Limit
    ensures ToLongLong(s).None? ==> id == 0
  {
    match ToLongLong(s)
    case Some(v) => v
    case None => 0
  }

  /** A host id written with QString::number reads back as itself. */
  lemma HostIdRoundTrip(id: int)
    requires Int64Min <= id < Int64Limit
    ensures ToLongLong(SignedDecimal(id)) == Some(id)
    ensures ReadHostId(SignedDecimal(id)) == id
  {
    SignedDecimalRoundTrip(id);
  }

  /** The checks readJsonSettings makes before the generic ones: the four UIT members are strings. */
  predicate UitSettingsValid(json: Json) {
    Get(json, "kerberosUserName").JString? && Get(json, "kerberosRealm").JString? &&
    Get(json, "hostName").JString? && Get(json, "hostID").JString?
  }

  /** The queue's own settings: the Kerberos user and realm and the host, by name and by id. */
  datatype Account = Account(kerberosUserName: string, kerberosRealm: string, hostName: string, hostId: int)

  /** writeJsonSettings: the generic settings plus the four UIT members, the host id in decimal. */
  function UitJson(generic: Json, a: Account): Json {
    Set(Set(Set(Set(generic, "kerberosUserName", JString(a.kerberosUserName)), "kerberosRealm", JString(a.kerberosRealm)),
            "hostName", JString(a.hostName)), "hostID", JString(SignedDecimal(a.hostId)))
  }

  /** What readJsonSettings takes from the four UIT members, the host id read with toLongLong. */
  function ReadAccount(json: Json): (a: Account)
    requires UitSettingsValid(json)
    ensures Int64Min <= a.hostId < Int64Limit
  {
    Account(Get(json, "kerberosUserName").s, Get(json, "kerberosRealm").s, Get(json, "hostName").s,
            ReadHostId(Get(json, "hostID").s))
  }

  /** The UIT members leave every generic member as it was. */
  lemma UitJsonKeepsGeneric(generic: Json, a: Account, key: string)
    requires key != "kerberosUserName" && key != "kerberosRealm" && key != "hostName" && key != "hostID"
    ensures Get(UitJson(generic, a), key) == Get(generic, key)
    ensures Has(UitJson(generic, a), key) <==> Has(generic, key)
  {
  }

  /** What writeJsonSettings writes passes readJsonSettings' own checks and reads back as written. */
  lemma UitJsonReadBack(generic: Json, a: Account)
    requires Int64Min <= a.hostId < Int64Limit
    ensures UitSettingsValid(UitJson(generic, a)) && ReadAccount(UitJson(generic, a)) == a
  {
    HostIdRoundTrip(a.hostId);
  }

  /** The request for the jobs of the last day on the queue's host, for the queue's user. */
  datatype JobsRequest = JobsRequest(hostId: int, searchUser: string, userName: string, numDays: int)

  class UitQueue {
    const base: Queues.Queue
    var account: Account
    var checking: bool
    var stateChanges: seq<(IdType, J.JobState)>
    var finalizing: seq<IdType>

    ghost predicate Valid()
      reads this, base, base.programs.Values
    {
      base.Valid() && base.kind == Queues.Uit && Int64Min <= account.hostId < Int64Limit
    }

    /** A new UIT queue: the realm HPCMP.HPC.MIL, host id -1, not checking, and the script job.uit. */
    constructor (launchTemplate: string)
      ensures Valid() && fresh(base)
      ensures base.name == "ezHPC UIT" && base.kind == Queues.Uit
      ensures base.launchTemplate == launchTemplate && base.launchScriptName == "job.uit"
      ensures base.programs == map[] && base.jobs == map[]
      ensures account == Account([], "HPCMP.HPC.MIL", [], -1)
      ensures !checking && stateChanges == [] && finalizing == []
    {
      base := new Queues.Queue("ezHPC UIT", Queues.Uit, launchTemplate, "job.uit");
      account := Account([], "HPCMP.HPC.MIL", [], -1);
      checking := false;
      stateChanges, finalizing := [], [];
    }

    /**
     * requestQueueUpdate: nothing while a check is running or while no job
     * is tracked; otherwise the flag is set and the request is sent.
     */
    method RequestQueueUpdate() returns (request: Option<JobsRequest>)
      modifies this
      ensures request.Some? <==> !old(checking) && |base.jobs| > 0
      ensures checking <==> old(checking) || request.Some?
      ensures request.Some? ==> request.value == JobsRequest(account.hostId, account.kerberosUserName, account.kerberosUserName, 1)
      ensures account == old(account)
      ensures stateChanges == old(stateChanges) && finalizing == old(finalizing)
    {
      if checking {
        return None;
      }
      if |base.jobs| == 0 {
        return None;
      }
      checking := true;
      request := Some(JobsRequest(account.hostId, account.kerberosUserName, account.kerberosUserName, 1));
    }

    /** requestQueueUpdateError: the check is over. */
    method RequestQueueUpdateError()
      modifies this
      ensures !checking
      ensures account == old(account)
      ensures stateChanges == old(stateChanges) && finalizing == old(finalizing)
    {
      checking := false;
    }

    /**
     * beginFinalizeJob: an id the queue does not track (or maps to
     * InvalidId) is ignored; otherwise its mapping is removed, and the
     * job's output is fetched when the server is there and knows the job.
     */
    method BeginFinalizeJob(queueId: IdType, hasServer: bool, valid: set<IdType>)
      requires Valid()
      modifies this, base
      ensures Valid()
      ensures var m := RemoteSsh.Tracked(old(base.jobs), queueId);
        base.jobs == (if m == InvalidId then old(base.jobs) else old(base.jobs) - {queueId}) &&
        finalizing == old(finalizing) + (if m != InvalidId && hasServer && m in valid then [m] else [])
      ensures base.failureTracker == old(base.failureTracker) && base.programs == old(base.programs)
      ensures checking == old(checking) && stateChanges == old(stateChanges)
      ensures account == old(account)
    {
      var moleQueueId := RemoteSsh.Tracked(base.jobs, queueId);
      if moleQueueId == InvalidId {
        return;
      }
      base.ForgetQueueId(queueId);
      if !hasServer || moleQueueId !in valid {
        return;
      }
      finalizing := finalizing + [moleQueueId];
    }

    /**
     * handleQueueUpdate(QList<JobEvent>): the events are grouped by job,
     * every tracked id is handled as QueueUpdate says, and the check is
     * over.
     */
    method HandleQueueUpdate(events: seq<JobEvent>, hasServer: bool, states: map<IdType, J.JobState>)
      requires Valid()
      modifies this, base
      ensures Valid() && !checking
      ensures var o := QueueUpdate(old(base.jobs), states, hasServer, events);
        base.jobs == o.jobs && stateChanges == old(stateChanges) + o.changes && finalizing == old(finalizing) + o.finals
      ensures base.failureTracker == old(base.failureTracker) && base.programs == old(base.programs)
      ensures account == old(account)
    {
      // An aborted scan changed nothing, so its result is written back as is.
      var _, o := ScanEvents(base.jobs, states, hasServer, events);
      Apply(o);
    }

    /** Writes back the job table, the state changes and the jobs to finalize of one pass, and ends the check. */
    method Apply(o: Pass)
      requires Valid()
      modifies this, base
      ensures Valid() && !checking
      ensures base.jobs == o.jobs && stateChanges == old(stateChanges) + o.changes && finalizing == old(finalizing) + o.finals
      ensures base.failureTracker == old(base.failureTracker) && base.programs == old(base.programs)
      ensures account == old(account)
    {
      base.jobs := o.jobs;
      stateChanges, finalizing, checking := stateChanges + o.changes, finalizing + o.finals, false;
    }

    /** writeJsonSettings: the generic settings and the four UIT members. */
    function WriteJsonSettings(exportOnly: bool, includePrograms: bool): (json: Json)
      reads this, base, base.programs.Values
    {
      UitJson(base.WriteJsonSettings(exportOnly, includePrograms), account)
    }

    /** What a UIT queue writes it reads back: its own checks pass and the generic members are untouched. */
    lemma WrittenUitSettings(exportOnly: bool, includePrograms: bool)
      requires Valid()
      ensures var json := WriteJsonSettings(exportOnly, includePrograms);
        && UitSettingsValid(json) && ReadAccount(json) == account
        && Get(json, "launchTemplate") == Get(base.WriteJsonSettings(exportOnly, includePrograms), "launchTemplate")
    {
      var generic := base.WriteJsonSettings(exportOnly, includePrograms);
      UitJsonReadBack(generic, account);
      UitJsonKeepsGeneric(generic, account, "launchTemplate");
    }

    /**
     * readJsonSettings: nothing changes unless the four UIT members are
     * strings and then the generic checks pass; then the members are read,
     * the host id with toLongLong.
     */
    method ReadJsonSettings(json: Json, importOnly: bool, includePrograms: bool) returns (ok: bool)
      requires Valid()
      modifies this, base
      ensures Valid()
      ensures ok <==> UitSettingsValid(json) && base.SettingsValid(json, importOnly, includePrograms)
      ensures !ok ==> account == old(account)
      ensures !ok ==> base.programs == old(base.programs) && base.jobs == old(base.jobs)
      ensures ok ==> account == ReadAccount(json)
      ensures checking == old(checking) && stateChanges == old(stateChanges) && finalizing == old(finalizing)
    {
      if !UitSettingsValid(json) {
        return false;
      }
      ok := base.ReadJsonSettings(json, importOnly, includePrograms);
      if !ok {
        return;
      }
      account := ReadAccount(json);
    }
  }
}
