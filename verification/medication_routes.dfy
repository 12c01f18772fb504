/**
 * The medication endpoints: the filtered listing, creation behind the request
 * validators, and the owner-guarded get, update, delete and active toggle.
 * Each handler is a function from the collection to a reply and the new
 * collection; `MedicationStore` runs the handlers on the collection in place.
 */
module MedicationRoutes {
  import opened Common
  import opened MedicationModel

  /** Ids are distinct and all below the next id to hand out. */
  ghost predicate WellKeyed(meds: seq<Medication>, nextId: nat)
  {
    && (forall i :: 0 <= i < |meds| ==> meds[i].id < nextId)
    && (forall i, j :: 0 <= i < j < |meds| ==> meds[i].id != meds[j].id)
  }

  /** Ownership, read through the position of the medication. */
  lemma OwnsAt(meds: seq<Medication>, id: nat, caller: nat)
    ensures OwnsMedication(meds, id, caller) <==>
      MedicationIndex(meds, id).Some? && meds[MedicationIndex(meds, id).value].user == caller
  {
  }

  // ===========================================================================
  // GET /api/medications

  datatype MedicationQuery = MedicationQuery(isActive: Option<string>, startDate: Option<Time>, endDate: Option<Time>)

  /**
   * The listing's conditions: the caller's medications; `isActive` only when
   * the parameter is present (true iff it is the string "true"); a start date
   * on or after `startDate`; an end date that exists and is on or before
   * `endDate`.
   */
  predicate MedicationMatches(q: MedicationQuery, caller: nat, m: Medication)
  {
    && m.user == caller
    && (q.isActive.Some? ==> m.isActive == (q.isActive.value == "true"))
    && (q.startDate.Some? ==> m.startDate >= q.startDate.value)
    && (q.endDate.Some? ==> m.endDate.Some? && m.endDate.value <= q.endDate.value)
  }

  function CreatedKey(m: Medication): int
  {
    m.createdAt
  }

  /** The matching medications, newest first. */
  function ListMedications(meds: seq<Medication>, caller: nat, q: MedicationQuery): (out: seq<Medication>)
    ensures forall i, j :: 0 <= i < j < |out| ==> out[i].createdAt >= out[j].createdAt
    ensures forall m :: multiset(out)[m] == if MedicationMatches(q, caller, m) then multiset(meds)[m] else 0
  {
    var p := m => MedicationMatches(q, caller, m);
    FilterSelects(meds, p);
    SortByDesc(Filter(meds, p), CreatedKey)
  }

  /** Any value of `isActive` other than "true", the empty string included, selects inactive ones. */
  lemma IsActiveParameter(caller: nat, m: Medication, v: string)
    requires m.user == caller
    ensures MedicationMatches(MedicationQuery(Some(v), None, None), caller, m) <==> m.isActive == (v == "true")
    ensures MedicationMatches(MedicationQuery(None, None, None), caller, m)
  {
  }

  // ===========================================================================
  // POST /api/medications

  /** The request validators, checked before anything is written. */
  predicate ValidCreateRequest(body: MedicationBody)
  {
    && body.name.Some? && Trim(body.name.value) != ""
    && body.dosage.Some? && body.dosage.value.amount.Some? && IsNumeric(body.dosage.value.amount.value)
    && body.dosage.value.unit.Some? && body.dosage.value.unit.value != ""
    && body.frequency.Some? && body.frequency.value != ""
    && body.schedule.Some? && |body.schedule.value| >= 1
  }

  /**
   * Creation: 400 when a validator fails; the body with `user` replaced by
   * the caller is then cast by the schema (500 when that fails) and appended.
   */
  function CreateOutcome(meds: seq<Medication>, nextId: nat, caller: nat, body: MedicationBody, now: Time)
    : (res: (Reply, seq<Medication>))
    ensures res.0 == BadRequest <==> !ValidCreateRequest(body)
    ensures res.0 == Created <==> ValidCreateRequest(body) && Castable(body.(user := Some(caller)))
    ensures res.0 != Created ==> res.1 == meds
    ensures res.0 == Created ==>
      |res.1| == |meds| + 1 && res.1[..|meds|] == meds
      && var m := res.1[|meds|];
        m.id == nextId && m.user == caller && m.createdAt == now
        && m.name == Trim(body.name.value) && m.name != ""
        && |m.schedule| == |body.schedule.value| >= 1
    ensures res.0 == Created ==> Some(res.1[|meds|]) == NewMedication(nextId, body.(user := Some(caller)), now)
  {
    if !ValidCreateRequest(body) then (BadRequest, meds)
    else match NewMedication(nextId, body.(user := Some(caller)), now)
      case None => (ServerError, meds)
      case Some(m) => (Created, meds + [m])
  }

  /** Whatever `user` the body names, the medication is created for the caller. */
  lemma CreateOwnerIsCaller(meds: seq<Medication>, nextId: nat, caller: nat, body: MedicationBody, u: Option<nat>, now: Time)
    ensures CreateOutcome(meds, nextId, caller, body.(user := u), now) == CreateOutcome(meds, nextId, caller, body, now)
  {
    assert body.(user := u).(user := Some(caller)) == body.(user := Some(caller));
  }

  /** Creation keeps the collection well keyed. */
  lemma CreateKeepsKeys(meds: seq<Medication>, nextId: nat, caller: nat, body: MedicationBody, now: Time)
    requires WellKeyed(meds, nextId)
    ensures WellKeyed(CreateOutcome(meds, nextId, caller, body, now).1, nextId + 1)
  {
    var after := CreateOutcome(meds, nextId, caller, body, now).1;
    if after == meds {
      KeysBelowGrow(meds, nextId);
    } else {
      assert after == after[..|meds|] + [after[|meds|]];
      KeysAppend(meds, nextId, after[|meds|]);
    }
  }

  lemma KeysBelowGrow(meds: seq<Medication>, nextId: nat)
    requires WellKeyed(meds, nextId)
    ensures WellKeyed(meds, nextId + 1)
  {
  }

  /** Appending a medication that takes the next id keeps the collection well keyed. */
  lemma KeysAppend(meds: seq<Medication>, nextId: nat, m: Medication)
    requires WellKeyed(meds, nextId) && m.id == nextId
    ensures WellKeyed(meds + [m], nextId + 1)
  {
    var after := meds + [m];
    forall i, j | 0 <= i < j < |after| ensures after[i].id != after[j].id {
      assert after[i] == meds[i];
    }
  }

  // ===========================================================================
  // GET /api/medications/:id

  function GetOutcome(meds: seq<Medication>, id: nat, caller: nat): (res: (Reply, Option<Medication>))
    ensures res.0 == NotFound <==> !OwnsMedication(meds, id, caller)
    ensures res.0 == Ok <==> res.1.Some?
    ensures res.1.Some? ==> res.1.value in meds && res.1.value.id == id && res.1.value.user == caller
  {
    if OwnsMedication(meds, id, caller) then (Ok, FindMedication(meds, id)) else (NotFound, None)
  }

  // ===========================================================================
  // PUT /api/medications/:id

  /** An update body: the paths it sets, already cast to their types. */
  datatype MedicationPatch = MedicationPatch(
    user: Option<nat>,
    name: Option<string>,
    dosage: Option<Dosage>,
    frequency: Option<Frequency>,
    schedule: Option<seq<ScheduleEntry>>,
    startDate: Option<Time>,
    endDate: Option<Time>,
    shape: Option<Shape>,
    refillReminder: Option<RefillReminder>,
    isActive: Option<bool>,
    notes: Option<string>)

  /** The update validators: a required string set to empty fails. */
  predicate PatchValid(p: MedicationPatch)
  {
    && (p.name.Some? ==> Trim(p.name.value) != "")
    && (p.schedule.Some? ==> forall k :: 0 <= k < |p.schedule.value| ==> p.schedule.value[k].time != "")
  }

  /** `$set` of every path the body names; the others are kept. */
  function Patched(m: Medication, p: MedicationPatch): (r: Medication)
    ensures r.id == m.id && r.createdAt == m.createdAt
  {
    m.(user := if p.user.Some? then p.user.value else m.user,
       name := if p.name.Some? then Trim(p.name.value) else m.name,
       dosage := if p.dosage.Some? then p.dosage.value else m.dosage,
       frequency := if p.frequency.Some? then p.frequency.value else m.frequency,
       schedule := if p.schedule.Some? then p.schedule.value else m.schedule,
       startDate := if p.startDate.Some? then p.startDate.value else m.startDate,
       endDate := if p.endDate.Some? then p.endDate else m.endDate,
       shape := if p.shape.Some? then p.shape else m.shape,
       refillReminder := if p.refillReminder.Some? then p.refillReminder.value else m.refillReminder,
       isActive := if p.isActive.Some? then p.isActive.value else m.isActive,
       notes := if p.notes.Some? then p.notes else m.notes)
  }

  const EmptyPatch := MedicationPatch(None, None, None, None, None, None, None, None, None, None, None)

  /** A body that names no path leaves the medication as it was. */
  lemma EmptyPatchKeeps(m: Medication)
    ensures Patched(m, EmptyPatch) == m
  {
  }

  function UpdateOutcome(meds: seq<Medication>, id: nat, caller: nat, p: MedicationPatch): (res: (Reply, seq<Medication>))
    ensures res.0 == NotFound <==> !OwnsMedication(meds, id, caller)
    ensures res.0 == ServerError <==> OwnsMedication(meds, id, caller) && !PatchValid(p)
    ensures res.0 != Ok ==> res.1 == meds
    ensures res.0 == Ok ==> var i := MedicationIndex(meds, id).value;
      |res.1| == |meds| && res.1[i] == Patched(meds[i], p)
      && forall j :: 0 <= j < |meds| && j != i ==> res.1[j] == meds[j]
  {
    if !OwnsMedication(meds, id, caller) then (NotFound, meds)
    else if !PatchValid(p) then (ServerError, meds)
    else
      var i := MedicationIndex(meds, id).value;
      (Ok, meds[i := Patched(meds[i], p)])
  }

  /** An update that names another `user` hands the medication over: the caller loses it. */
  lemma UpdateCanReassignOwner(meds: seq<Medication>, id: nat, caller: nat, p: MedicationPatch)
    requires OwnsMedication(meds, id, caller) && PatchValid(p)
    requires p.user.Some? && p.user.value != caller
    ensures var after := UpdateOutcome(meds, id, caller, p).1;
      !OwnsMedication(after, id, caller) && OwnsMedication(after, id, p.user.value)
  {
    var i := MedicationIndex(meds, id).value;
    var after := UpdateOutcome(meds, id, caller, p).1;
    IndexAfterReplace(meds, id, i, Patched(meds[i], p));
  }

  /** Replacing the medication at the position of `id` by one with the same id keeps its position. */
  lemma {:induction false} IndexAfterReplace(meds: seq<Medication>, id: nat, i: nat, m: Medication)
    requires MedicationIndex(meds, id) == Some(i) && m.id == id
    ensures MedicationIndex(meds[i := m], id) == Some(i)
  {
    if i > 0 {
      IndexAfterReplace(meds[1..], id, i - 1, m);
      assert meds[i := m][1..] == meds[1..][i - 1 := m];
    }
  }

  // ===========================================================================
  // DELETE /api/medications/:id

  function DeleteOutcome(meds: seq<Medication>, id: nat, caller: nat): (res: (Reply, seq<Medication>))
    ensures res.0 == NotFound <==> !OwnsMedication(meds, id, caller)
    ensures res.0 == Ok || res.0 == NotFound
    ensures res.0 == NotFound ==> res.1 == meds
    ensures res.0 == Ok ==> var i := MedicationIndex(meds, id).value;
      res.1 == meds[..i] + meds[i + 1..]
  {
    if !OwnsMedication(meds, id, caller) then (NotFound, meds)
    else
      var i := MedicationIndex(meds, id).value;
      (Ok, meds[..i] + meds[i + 1..])
  }

  /** After a delete in a well-keyed collection the id is gone and nothing else is. */
  lemma DeleteRemovesExactly(meds: seq<Medication>, nextId: nat, id: nat, caller: nat)
    requires WellKeyed(meds, nextId) && OwnsMedication(meds, id, caller)
    ensures var after := DeleteOutcome(meds, id, caller).1;
      && FindMedication(after, id).None?
      && |after| == |meds| - 1
      && WellKeyed(after, nextId)
      && forall m :: m in meds && m.id != id ==> m in after
  {
    var i := MedicationIndex(meds, id).value;
    var after := DeleteOutcome(meds, id, caller).1;
    RemoveAt(meds, nextId, i);
    assert forall j :: 0 <= j < |after| ==> after[j].id != id;
  }

  /** Removing position `i` of a well-keyed collection removes its id and nothing else. */
  lemma RemoveAt(meds: seq<Medication>, nextId: nat, i: nat)
    requires WellKeyed(meds, nextId) && i < |meds|
    ensures var after := meds[..i] + meds[i + 1..];
      && |after| == |meds| - 1
      && WellKeyed(after, nextId)
      && (forall j :: 0 <= j < |after| ==> after[j].id != meds[i].id)
      && (forall m :: m in meds && m.id != meds[i].id ==> m in after)
  {
    var after := meds[..i] + meds[i + 1..];
    assert forall j :: 0 <= j < |after| ==> after[j] == if j < i then meds[j] else meds[j + 1];
    forall m | m in meds && m.id != meds[i].id ensures m in after {
      var k :| 0 <= k < |meds| && meds[k] == m;
      assert after[if k < i then k else k - 1] == m;
    }
  }

  // ===========================================================================
  // PATCH /api/medications/:id/toggle-active

  function ToggleOutcome(meds: seq<Medication>, id: nat, caller: nat): (res: (Reply, seq<Medication>))
    ensures res.0 == NotFound <==> !OwnsMedication(meds, id, caller)
    ensures res.0 == Ok || res.0 == NotFound
    ensures res.0 == NotFound ==> res.1 == meds
    ensures res.0 == Ok ==> var i := MedicationIndex(meds, id).value;
      |res.1| == |meds| && res.1[i] == meds[i].(isActive := !meds[i].isActive)
      && forall j :: 0 <= j < |meds| && j != i ==> res.1[j] == meds[j]
  {
    if !OwnsMedication(meds, id, caller) then (NotFound, meds)
    else
      var i := MedicationIndex(meds, id).value;
      (Ok, meds[i := meds[i].(isActive := !meds[i].isActive)])
  }

  /** Toggling twice restores the collection. */
  lemma ToggleTwice(meds: seq<Medication>, id: nat, caller: nat)
    ensures ToggleOutcome(ToggleOutcome(meds, id, caller).1, id, caller).1 == meds
  {
    if OwnsMedication(meds, id, caller) {
      var i := MedicationIndex(meds, id).value;
      var once := ToggleOutcome(meds, id, caller).1;
      IndexAfterReplace(meds, id, i, meds[i].(isActive := !meds[i].isActive));
      assert once[i := once[i].(isActive := !once[i].isActive)] == meds;
    }
  }

  // ===========================================================================
  // The collection

  class MedicationStore {
    var meds: seq<Medication>
    var nextId: nat

    ghost predicate Valid()
      reads this
    {
      WellKeyed(meds, nextId)
    }

    constructor ()
      ensures Valid() && meds == []
    {
      meds, nextId := [], 0;
    }

    method Create(caller: nat, body: MedicationBody, now: Time) returns (reply: Reply)
      requires Valid()
      modifies this
      ensures Valid()
      ensures (reply, meds) == CreateOutcome(old(meds), old(nextId), caller, body, now)
    {
      if !ValidCreateRequest(body) {
        return BadRequest;
      }
      var medicationData := body.(user := Some(caller));
      var medication := NewMedication(nextId, medicationData, now);
      if medication.None? {
        return ServerError;
      }
      CreateKeepsKeys(meds, nextId, caller, body, now);
      meds := meds + [medication.value];
      nextId := nextId + 1;
      reply := Created;
    }

    method Get(id: nat, caller: nat) returns (reply: Reply, medication: Option<Medication>)
      ensures (reply, medication) == GetOutcome(meds, id, caller)
    {
      medication := FindMedication(meds, id);
      if medication.None? || medication.value.user != caller {
        return NotFound, None;
      }
      reply := Ok;
    }

    method Update(id: nat, caller: nat, patch: MedicationPatch) returns (reply: Reply)
      requires Valid()
      modifies this
      ensures Valid()
      ensures (reply, meds) == UpdateOutcome(old(meds), id, caller, patch)
    {
      var i := MedicationIndex(meds, id);
      if i.None? || meds[i.value].user != caller {
        return NotFound;
      }
      if !PatchValid(patch) {
        return ServerError;
      }
      meds := meds[i.value := Patched(meds[i.value], patch)];
      reply := Ok;
    }

    method Delete(id: nat, caller: nat) returns (reply: Reply)
      requires Valid()
      modifies this
      ensures Valid()
      ensures (reply, meds) == DeleteOutcome(old(meds), id, caller)
    {
      var i := MedicationIndex(meds, id);
      if i.None? || meds[i.value].user != caller {
        return NotFound;
      }
      DeleteRemovesExactly(meds, nextId, id, caller);
      meds := meds[..i.value] + meds[i.value + 1..];
      reply := Ok;
    }

    method ToggleActive(id: nat, caller: nat) returns (reply: Reply)
      requires Valid()
      modifies this
      ensures Valid()
      ensures (reply, meds) == ToggleOutcome(old(meds), id, caller)
    {
      var i := MedicationIndex(meds, id);
      if i.None? || meds[i.value].user != caller {
        return NotFound;
      }
      var medication := meds[i.value];
      medication := medication.(isActive := !medication.isActive);
      meds := meds[i.value := medication];
      reply := Ok;
    }
  }
}
