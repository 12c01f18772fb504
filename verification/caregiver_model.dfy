/**
 * The Caregiver document: a relationship between a patient and a caregiver,
 * its permission flags with their defaults, and the three methods that move
 * an invitation through its states in place (`acceptInvitation`,
 * `declineInvitation`, `revokeAccess`).
 *
 * `Link` is the value of a document and `CaregiverDoc` the mutable document;
 * each method of `CaregiverDoc` is specified by a function on `Link` values.
 */
module CaregiverModel {
  import opened Common

  datatype Relationship = Family | Friend | Professional | Nurse | Doctor | Other

  /** The `relationship` enum; any other string fails schema validation. */
  function ParseRelationship(s: string): (r: Option<Relationship>)
    ensures r.Some? <==> s in {"family", "friend", "professional", "nurse", "doctor", "other"}
  {
    if s == "family" then Some(Family)
    else if s == "friend" then Some(Friend)
    else if s == "professional" then Some(Professional)
    else if s == "nurse" then Some(Nurse)
    else if s == "doctor" then Some(Doctor)
    else if s == "other" then Some(Other)
    else None
  }

  datatype Status = Pending | Active | Declined | Revoked

  datatype Permissions = Permissions(
    viewMedications: bool,
    viewReminders: bool,
    editMedications: bool,
    receiveNotifications: bool,
    viewHistory: bool)

  /** The schema defaults: everything but editing medications. */
  const DefaultPermissions := Permissions(true, true, false, true, true)

  /** A permissions object from a request body: the keys it names, already cast to booleans. */
  datatype PermissionsPatch = PermissionsPatch(
    viewMedications: Option<bool>,
    viewReminders: Option<bool>,
    editMedications: Option<bool>,
    receiveNotifications: Option<bool>,
    viewHistory: Option<bool>)

  const EmptyPatch := PermissionsPatch(None, None, None, None, None)

  function Pick(given: Option<bool>, kept: bool): bool
  {
    if given.Some? then given.value else kept
  }

  /** `{ ...p, ...patch }`: the keys the patch names override, the others are kept. */
  function Merge(p: Permissions, patch: PermissionsPatch): (r: Permissions)
    ensures patch.viewMedications.Some? ==> r.viewMedications == patch.viewMedications.value
    ensures patch.viewMedications.None? ==> r.viewMedications == p.viewMedications
    ensures patch.viewReminders.Some? ==> r.viewReminders == patch.viewReminders.value
    ensures patch.viewReminders.None? ==> r.viewReminders == p.viewReminders
    ensures patch.editMedications.Some? ==> r.editMedications == patch.editMedications.value
    ensures patch.editMedications.None? ==> r.editMedications == p.editMedications
    ensures patch.receiveNotifications.Some? ==> r.receiveNotifications == patch.receiveNotifications.value
    ensures patch.receiveNotifications.None? ==> r.receiveNotifications == p.receiveNotifications
    ensures patch.viewHistory.Some? ==> r.viewHistory == patch.viewHistory.value
    ensures patch.viewHistory.None? ==> r.viewHistory == p.viewHistory
  {
    Permissions(
      Pick(patch.viewMedications, p.viewMedications),
      Pick(patch.viewReminders, p.viewReminders),
      Pick(patch.editMedications, p.editMedications),
      Pick(patch.receiveNotifications, p.receiveNotifications),
      Pick(patch.viewHistory, p.viewHistory))
  }

  /** A patch naming no key changes nothing, and merging the same patch twice is merging it once. */
  lemma MergeLaws(p: Permissions, patch: PermissionsPatch)
    ensures Merge(p, EmptyPatch) == p
    ensures Merge(Merge(p, patch), patch) == Merge(p, patch)
  {
  }

  /** The value of a relationship document; `id` is its position in the collection. */
  datatype Link = Link(
    id: nat,
    patient: nat,
    caregiver: nat,
    relationship: Relationship,
    permissions: Permissions,
    status: Status,
    invitedAt: Time,
    acceptedAt: Option<Time>,
    revokedAt: Option<Time>,
    notes: Option<string>,
    createdAt: Time)

  /**
   * `Caregiver.create({patient, caregiver, relationship, permissions: permissions || {}})`:
   * a pending invitation whose permissions are the defaults overridden by the
   * keys the request names.
   */
  function NewLink(id: nat, patient: nat, caregiver: nat, relationship: Relationship, permissions: Option<PermissionsPatch>,
                   now: Time): (l: Link)
    ensures l.id == id && l.patient == patient && l.caregiver == caregiver && l.relationship == relationship
    ensures l.status == Pending && l.acceptedAt == None && l.revokedAt == None
    ensures l.invitedAt == now && l.createdAt == now
    ensures permissions.None? ==> l.permissions == DefaultPermissions && !l.permissions.editMedications
    ensures permissions.Some? ==> l.permissions == Merge(DefaultPermissions, permissions.value)
  {
    var patch := if permissions.Some? then permissions.value else EmptyPatch;
    Link(id, patient, caregiver, relationship, Merge(DefaultPermissions, patch), Pending, now, None, None, None, now)
  }

  /** `acceptInvitation()`: active from now on, whatever the status was. */
  function AcceptedRecord(l: Link, now: Time): Link
  {
    l.(status := Active, acceptedAt := Some(now))
  }

  /** `declineInvitation()`: declined, with no timestamp recorded. */
  function DeclinedRecord(l: Link): Link
  {
    l.(status := Declined)
  }

  /** `revokeAccess()`: revoked from now on, whatever the status was. */
  function RevokedRecord(l: Link, now: Time): Link
  {
    l.(status := Revoked, revokedAt := Some(now))
  }

  /** The in-place overwrite of `permissions` by the permissions handler. */
  function PermissionsUpdated(l: Link, patch: PermissionsPatch): Link
  {
    l.(permissions := Merge(l.permissions, patch))
  }

  /**
   * Each transition sets its status and its own timestamp and nothing else:
   * declining leaves both timestamps as they were, and none of the methods
   * looks at the prior status.
   */
  lemma TransitionEffects(l: Link, now: Time)
    ensures var a := AcceptedRecord(l, now);
      a.status == Active && a.acceptedAt == Some(now) && a.(status := l.status, acceptedAt := l.acceptedAt) == l
    ensures var d := DeclinedRecord(l);
      d.status == Declined && d.acceptedAt == l.acceptedAt && d.revokedAt == l.revokedAt && d.(status := l.status) == l
    ensures var r := RevokedRecord(l, now);
      r.status == Revoked && r.revokedAt == Some(now) && r.acceptedAt == l.acceptedAt
      && r.(status := l.status, revokedAt := l.revokedAt) == l
  {
  }

  /** A permissions update touches no other field and never changes who is linked to whom. */
  lemma PermissionsUpdateFrame(l: Link, patch: PermissionsPatch)
    ensures var u := PermissionsUpdated(l, patch);
      u.(permissions := l.permissions) == l && u.patient == l.patient && u.caregiver == l.caregiver
    ensures PermissionsUpdated(l, EmptyPatch) == l
  {
  }

  // ---------------------------------------------------------------------------
  // The mutable document

  class CaregiverDoc {
    const id: nat
    const patient: nat
    const caregiver: nat
    var relationship: Relationship
    var permissions: Permissions
    var status: Status
    var invitedAt: Time
    var acceptedAt: Option<Time>
    var revokedAt: Option<Time>
    var notes: Option<string>
    const createdAt: Time

    /** The current value of the document. */
    function View(): (l: Link)
      reads this
      ensures l.id == id && l.patient == patient && l.caregiver == caregiver && l.createdAt == createdAt
    {
      Link(id, patient, caregiver, relationship, permissions, status, invitedAt, acceptedAt, revokedAt, notes, createdAt)
    }

    constructor (id: nat, patient: nat, caregiver: nat, relationship: Relationship, permissions: Option<PermissionsPatch>,
                 now: Time)
      ensures View() == NewLink(id, patient, caregiver, relationship, permissions, now)
    {
      this.id := id;
      this.patient := patient;
      this.caregiver := caregiver;
      this.relationship := relationship;
      this.permissions := Merge(DefaultPermissions, if permissions.Some? then permissions.value else EmptyPatch);
      status := Pending;
      invitedAt := now;
      acceptedAt, revokedAt, notes := None, None, None;
      createdAt := now;
    }

    method AcceptInvitation(now: Time)
      modifies this
      ensures View() == AcceptedRecord(old(View()), now)
    {
      status := Active;
      acceptedAt := Some(now);
    }

    method DeclineInvitation()
      modifies this
      ensures View() == DeclinedRecord(old(View()))
    {
      status := Declined;
    }

    method RevokeAccess(now: Time)
      modifies this
      ensures View() == RevokedRecord(old(View()), now)
    {
      status := Revoked;
      revokedAt := Some(now);
    }
  }
}
