/** The saved-doctor store (`SavedProvider`): the bookmarked doctor ids and
    the ids whose toggle request is still in flight. */
module Saved {
  import opened Common
  import opened Seqs

  type DoctorId = int

  /** One entry of `GET /saved-doctors/`: the doctor's id under `doctor`
      (possibly missing) and the record's own `id`. */
  datatype SavedRecord = SavedRecord(doctor: Option<int>, id: int)

  /** `item.doctor || item.id`: a missing or zero `doctor` falls back to `id`. */
  function IdOf(item: SavedRecord): int
  {
    if item.doctor.Some? && item.doctor.value != 0 then item.doctor.value else item.id
  }

  /** The ids of a fetched saved list, one per record, in order. */
  function ExtractIds(items: seq<SavedRecord>): (r: seq<DoctorId>)
    ensures |r| == |items|
    ensures forall i :: 0 <= i < |items| ==>
              r[i] == (if items[i].doctor.Some? && items[i].doctor.value != 0 then items[i].doctor.value else items[i].id)
  {
    if items == [] then [] else [IdOf(items[0])] + ExtractIds(items[1..])
  }

  function IsNot(d: DoctorId): DoctorId -> bool
  {
    x => x != d
  }

  /** `ids.filter(id => id !== d)`. */
  function Without(ids: seq<DoctorId>, d: DoctorId): (r: seq<DoctorId>)
    ensures forall x :: x in r <==> x in ids && x != d
  {
    Filter(ids, IsNot(d))
  }

  /** The optimistic step: remove every occurrence of `d` if it was saved,
      otherwise append it. */
  function Optimistic(ids: seq<DoctorId>, d: DoctorId, wasSaved: bool): (r: seq<DoctorId>)
    ensures (d in r) == !wasSaved
    ensures forall x :: x != d ==> (x in r <==> x in ids)
  {
    if wasSaved then Without(ids, d) else ids + [d]
  }

  /** The revert after a failed request: append `d` back if it was saved,
      otherwise remove every occurrence. */
  function Rollback(ids: seq<DoctorId>, d: DoctorId, wasSaved: bool): (r: seq<DoctorId>)
    ensures (d in r) == wasSaved
    ensures forall x :: x != d ==> (x in r <==> x in ids)
  {
    if wasSaved then ids + [d] else Without(ids, d)
  }

  /** Removing every `d` keeps the other ids in their order. */
  lemma WithoutIsSubsequence(ids: seq<DoctorId>, d: DoctorId)
    ensures Subsequence(Without(ids, d), ids)
  {
    FilterIsSubsequence(ids, IsNot(d));
  }

  /** Removing an id that is not present changes nothing. */
  lemma WithoutAbsent(ids: seq<DoctorId>, d: DoctorId)
    requires d !in ids
    ensures Without(ids, d) == ids
  {
    FilterKeepsAll(ids, IsNot(d));
  }

  /** Removing an id just appended to a list without it gives the list back. */
  lemma WithoutAppended(ids: seq<DoctorId>, d: DoctorId)
    requires d !in ids
    ensures Without(ids + [d], d) == ids
  {
    FilterConcat(ids, [d], IsNot(d));
    WithoutAbsent(ids, d);
    assert Filter([d], IsNot(d)) == [];
  }

  /** A failed add leaves the list exactly as it was. */
  lemma FailedAddRestoresList(ids: seq<DoctorId>, d: DoctorId)
    requires d !in ids
    ensures Rollback(Optimistic(ids, d, false), d, false) == ids
  {
    WithoutAppended(ids, d);
  }

  /** A failed remove restores membership of every id; `d` is moved to the
      end, once. */
  lemma FailedRemoveRestoresMembership(ids: seq<DoctorId>, d: DoctorId)
    requires d in ids
    ensures Rollback(Optimistic(ids, d, true), d, true) == Without(ids, d) + [d]
    ensures forall x :: x in Rollback(Optimistic(ids, d, true), d, true) <==> x in ids
  {
  }

  /** The store, with the auth state passed in by the caller. */
  class SavedStore {
    var savedIds: seq<DoctorId>
    var processingIds: seq<DoctorId>

    /** At most one request per id is in flight. */
    ghost predicate Valid()
      reads this
    {
      NoDuplicates(processingIds)
    }

    predicate IsSaved(id: DoctorId)
      reads this
    {
      id in savedIds
    }

    constructor ()
      ensures Valid()
      ensures savedIds == [] && processingIds == []
    {
      savedIds := [];
      processingIds := [];
    }

    /** The effect run whenever `isAuthenticated` changes. `response` is the
        body of `GET /saved-doctors/`, `None` when the request or the mapping
        fails. */
    method Refresh(authenticated: bool, response: Option<seq<SavedRecord>>)
      requires Valid()
      modifies this`savedIds
      ensures Valid()
      ensures !authenticated ==> savedIds == []
      ensures authenticated && response.Some? ==> savedIds == ExtractIds(response.value)
      ensures authenticated && response.None? ==> savedIds == old(savedIds)
    {
      if authenticated {
        if response.Some? {
          savedIds := ExtractIds(response.value);
        }
      } else {
        savedIds := [];
      }
    }

    /** `toggleSave` up to the request: the guards, the in-flight mark and the
        optimistic flip. Returns `Some(wasSaved)` when the request is issued. */
    method BeginToggle(d: DoctorId, authenticated: bool) returns (sent: Option<bool>)
      requires Valid()
      modifies this
      ensures Valid()
      ensures sent.Some? <==> authenticated && d !in old(processingIds)
      ensures sent.None? ==> savedIds == old(savedIds) && processingIds == old(processingIds)
      ensures sent.Some? ==> sent.value == old(IsSaved(d))
      ensures sent.Some? ==> processingIds == old(processingIds) + [d]
      ensures sent.Some? ==> savedIds == Optimistic(old(savedIds), d, sent.value)
    {
      if !authenticated {
        return None;
      }
      if d in processingIds {
        return None;
      }
      processingIds := processingIds + [d];
      assert NoDuplicates(processingIds);
      var wasSaved := d in savedIds;
      savedIds := Optimistic(savedIds, d, wasSaved);
      sent := Some(wasSaved);
    }

    /** `toggleSave` after the request settles: revert on failure, then clear
        the in-flight mark. */
    method SettleToggle(d: DoctorId, wasSaved: bool, ok: bool)
      requires Valid()
      modifies this
      ensures Valid()
      ensures savedIds == if ok then old(savedIds) else Rollback(old(savedIds), d, wasSaved)
      ensures processingIds == Without(old(processingIds), d)
      ensures d !in processingIds
      ensures forall x :: x != d ==> (x in processingIds <==> x in old(processingIds))
    {
      if !ok {
        savedIds := Rollback(savedIds, d, wasSaved);
      }
      FilterNoDuplicates(processingIds, IsNot(d));
      processingIds := Without(processingIds, d);
    }

    /** A whole `toggleSave` with nothing interleaved: on success the
        membership of `d` is negated, otherwise it is as before; no other id
        changes, and the in-flight list ends as it began. */
    method ToggleSave(d: DoctorId, authenticated: bool, ok: bool) returns (sent: bool)
      requires Valid()
      modifies this
      ensures Valid()
      ensures sent <==> authenticated && d !in old(processingIds)
      ensures IsSaved(d) == if sent && ok then !old(IsSaved(d)) else old(IsSaved(d))
      ensures forall x :: x != d ==> (IsSaved(x) <==> old(IsSaved(x)))
      ensures processingIds == old(processingIds)
      ensures !sent ==> savedIds == old(savedIds)
    {
      var t := BeginToggle(d, authenticated);
      sent := t.Some?;
      if sent {
        SettleToggle(d, t.value, ok);
        WithoutAppended(old(processingIds), d);
      }
    }
  }

  /** Two toggles of one id before the first settles issue at most one
      request, whatever state the store is in. */
  method DoubleToggle(s: SavedStore, d: DoctorId, authenticated: bool) returns (first: Option<bool>, second: Option<bool>)
    requires s.Valid()
    modifies s
    ensures s.Valid()
    ensures first.Some? <==> authenticated && d !in old(s.processingIds)
    ensures second.None?
  {
    first := s.BeginToggle(d, authenticated);
    second := s.BeginToggle(d, authenticated);
  }
}
