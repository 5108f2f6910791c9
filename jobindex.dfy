/**
 * The id maps of both job registries (molequeue/app/jobmanager.cpp and
 * molequeue/jobmanager.cpp): a QMap from an id to the job holding it, where
 * a job is a Handle into a store of job records.
 *
 * When a job's id changes, both registries find the job's old key with
 * QMap::key(job, sentinel) and remove it only when it differs from the
 * sentinel (InvalidId in one revision, 0 in the other). An entry stored
 * under the sentinel itself is therefore never removed. `RekeyAsWritten`
 * keeps that behaviour; `Rekey` removes whatever key the job held, and the
 * registries use it.
 */
module JobIndex {
  import opened Wrappers
  import opened IdTypes
  import ListOps

  type Handle = nat

  /** Every entry leads to a stored job whose id (as idOf reads it) is that key. */
  predicate Indexed<R>(m: map<IdType, Handle>, store: map<Handle, R>, idOf: R -> IdType) {
    forall id :: id in m ==> m[id] in store && idOf(store[m[id]]) == id
  }

  /** The re-keying as written: the old key is QMap::key(job, notFound), kept when it equals notFound. */
  function RekeyAsWritten(m: map<IdType, Handle>, h: Handle, newId: IdType, notFound: IdType): (r: map<IdType, Handle>)
    ensures newId in r && r[newId] == h
  {
    if newId in m && m[newId] == h then m
    else
      var oldKey := ListOps.KeyOf(m, h, notFound);
      var kept := if oldKey != notFound then m - {oldKey as IdType} else m;
      kept[newId := h]
  }

  /** The re-keying with the job's old key removed whichever id it is. */
  function Rekey(m: map<IdType, Handle>, h: Handle, newId: IdType): (r: map<IdType, Handle>)
    ensures newId in r && r[newId] == h
  {
    if newId in m && m[newId] == h then m
    else
      match ListOps.FindKey(m, h)
      case Some(oldKey) => (m - {oldKey as IdType})[newId := h]
      case None => m[newId := h]
  }

  /** Rekey after a job takes a new id keeps every entry consistent with the ids. */
  lemma RekeyIndexed<R>(m: map<IdType, Handle>, store: map<Handle, R>, idOf: R -> IdType,
                        h: Handle, newId: IdType, updated: R)
    requires Indexed(m, store, idOf) && h in store && idOf(updated) == newId
    ensures Indexed(Rekey(m, h, newId), store[h := updated], idOf)
  {
    var r := Rekey(m, h, newId);
    forall id | id in r
      ensures r[id] in store[h := updated] && idOf(store[h := updated][r[id]]) == id
    {
      if id != newId {
        assert id in m && r[id] == m[id];
      }
    }
  }

  /** Changing a job's record without changing its id keeps the map consistent. */
  lemma UpdateIndexed<R>(m: map<IdType, Handle>, store: map<Handle, R>, idOf: R -> IdType, h: Handle, updated: R)
    requires Indexed(m, store, idOf) && h in store && idOf(updated) == idOf(store[h])
    ensures Indexed(m, store[h := updated], idOf)
  {
    forall id | id in m
      ensures m[id] in store[h := updated] && idOf(store[h := updated][m[id]]) == id
    {
      assert m[id] in store && idOf(store[m[id]]) == id;
    }
  }

  /** A new job, mapped under its id or not at all, keeps the map consistent. */
  lemma InsertIndexed<R>(m: map<IdType, Handle>, store: map<Handle, R>, idOf: R -> IdType, h: Handle, added: R, mapped: bool)
    requires Indexed(m, store, idOf) && h !in store
    ensures Indexed(if mapped then m[idOf(added) := h] else m, store[h := added], idOf)
  {
    var m' := if mapped then m[idOf(added) := h] else m;
    forall id | id in m'
      ensures m'[id] in store[h := added] && idOf(store[h := added][m'[id]]) == id
    {
      if !(mapped && id == idOf(added)) {
        assert id in m && m'[id] == m[id] && m[id] in store && m[id] != h;
      }
    }
  }

  /** Removing a job together with the entry under its id leaves no entry leading to it. */
  lemma RemoveIndexed<R>(m: map<IdType, Handle>, store: map<Handle, R>, idOf: R -> IdType, h: Handle)
    requires Indexed(m, store, idOf) && h in store
    ensures Indexed(m - {idOf(store[h])}, store - {h}, idOf)
  {
    var m' := m - {idOf(store[h])};
    forall id | id in m'
      ensures m'[id] in store - {h} && idOf((store - {h})[m'[id]]) == id
    {
      assert id in m && m[id] in store && idOf(store[m[id]]) == id;
    }
  }

  /**
   * As written, a job first mapped under the sentinel and then given another
   * id stays mapped under the sentinel as well, so once its real key is
   * removed the map still leads to it, whatever the sentinel.
   */
  lemma AsWrittenLeavesStaleEntry(notFound: IdType, newId: IdType)
    requires newId != notFound
    ensures var m := RekeyAsWritten(map[], 0, notFound, notFound);
            m == map[notFound := 0] &&
            RekeyAsWritten(m, 0, newId, notFound) - {newId} == map[notFound := 0]
  {
    var m := RekeyAsWritten(map[], 0, notFound, notFound);
    assert m == map[notFound := 0];
    assert ListOps.KeyOf(m, 0, notFound) == notFound;
    var m' := RekeyAsWritten(m, 0, newId, notFound);
    assert m' == map[notFound := 0, newId := 0];
    assert m' - {newId} == map[notFound := 0];
  }

  /** Corrected, the same two changes leave only the new entry. */
  lemma RekeyDropsStaleEntry(first: IdType, newId: IdType)
    ensures Rekey(Rekey(map[], 0, first), 0, newId) == map[newId := 0]
  {
    var m := Rekey(map[], 0, first);
    assert m == map[first := 0];
    if newId != first {
      assert ListOps.FindKey(m, 0) == Some(first);
    }
  }
}
