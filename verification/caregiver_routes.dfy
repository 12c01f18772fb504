/**
 * The caregiver endpoints: inviting a caregiver by e-mail address, the
 * invitee's accept and decline, the patient's revoke and permission update,
 * and the three listings. Each handler is a function from the relationship
 * records to a reply and the new records; `CaregiverCollection` runs them on
 * the documents in place.
 */
module CaregiverRoutes {
  import opened Common
  import opened UserModel
  import opened CaregiverModel

  /** The unique (patient, caregiver) index: no pair occurs twice. */
  ghost predicate UniquePairs(ls: seq<Link>)
  {
    forall i, j :: 0 <= i < j < |ls| ==> ls[i].patient != ls[j].patient || ls[i].caregiver != ls[j].caregiver
  }

  /** Every record sits at its own identity. */
  ghost predicate Indexed(ls: seq<Link>)
  {
    forall i :: 0 <= i < |ls| ==> ls[i].id == i
  }

  /** No one is their own caregiver. */
  ghost predicate NoSelfLinks(ls: seq<Link>)
  {
    forall i :: 0 <= i < |ls| ==> ls[i].patient != ls[i].caregiver
  }

  /** What every reachable collection satisfies. */
  ghost predicate WellFormed(ls: seq<Link>)
  {
    UniquePairs(ls) && Indexed(ls) && NoSelfLinks(ls)
  }

  /** `Caregiver.findOne({ patient, caregiver })` finds something. */
  function HasPair(ls: seq<Link>, patient: nat, caregiver: nat): (b: bool)
    ensures b <==> exists i :: 0 <= i < |ls| && ls[i].patient == patient && ls[i].caregiver == caregiver
  {
    if ls == [] then false
    else if ls[0].patient == patient && ls[0].caregiver == caregiver then true
    else
      var b := HasPair(ls[1..], patient, caregiver);
      assert forall i :: 0 < i < |ls| ==> ls[i] == ls[1..][i - 1];
      if b then
        var k :| 0 <= k < |ls[1..]| && ls[1..][k].patient == patient && ls[1..][k].caregiver == caregiver;
        assert ls[k + 1] == ls[1..][k];
        true
      else false
  }

  // ===========================================================================
  // POST /api/caregivers/invite

  /**
   * The user an invitation addresses: the address is cast by the schema's
   * `lowercase` and `trim` setters before the lookup, as every query on
   * `email` is.
   */
  function Invitee(users: seq<User>, email: string): Option<User>
  {
    FindUserByEmail(users, NormalizeEmail(email))
  }

  /**
   * Inviting: 404 when no user has the cast address, 400 when it is the
   * caller's own or when a relationship for the pair exists in any status,
   * 500 when the relationship is missing or not in the enum; otherwise one
   * pending relationship is appended.
   */
  function InviteOutcome(ls: seq<Link>, users: seq<User>, caller: nat, email: string, relationship: Option<string>,
                         permissions: Option<PermissionsPatch>, now: Time): (res: (Reply, seq<Link>))
    ensures res.0 == NotFound <==> Invitee(users, email).None?
    ensures res.0 == BadRequest <==>
      Invitee(users, email).Some?
      && var invitee := Invitee(users, email).value.id;
        invitee == caller || HasPair(ls, caller, invitee)
    ensures res.0 == Created <==>
      Invitee(users, email).Some?
      && var invitee := Invitee(users, email).value.id;
        && invitee != caller && !HasPair(ls, caller, invitee)
        && relationship.Some? && ParseRelationship(relationship.value).Some?
    ensures res.0 in {NotFound, BadRequest, ServerError, Created}
    ensures res.0 != Created ==> res.1 == ls
    ensures res.0 == Created ==>
      && relationship.Some? && ParseRelationship(relationship.value).Some?
      && var invitee := Invitee(users, email).value;
        && invitee.id != caller && !HasPair(ls, caller, invitee.id)
        && res.1 == ls + [NewLink(|ls|, caller, invitee.id, ParseRelationship(relationship.value).value, permissions, now)]
  {
    match Invitee(users, email)
    case None => (NotFound, ls)
    case Some(invitee) =>
      if invitee.id == caller || HasPair(ls, caller, invitee.id) then (BadRequest, ls)
      else if relationship.None? || ParseRelationship(relationship.value).None? then (ServerError, ls)
      else (Created, ls + [NewLink(|ls|, caller, invitee.id, ParseRelationship(relationship.value).value, permissions, now)])
  }

  /** Inviting keeps pairs unique, identities positional and self-links impossible. */
  lemma InviteKeepsWellFormed(ls: seq<Link>, users: seq<User>, caller: nat, email: string, relationship: Option<string>,
                              permissions: Option<PermissionsPatch>, now: Time)
    requires WellFormed(ls)
    ensures WellFormed(InviteOutcome(ls, users, caller, email, relationship, permissions, now).1)
  {
    var res := InviteOutcome(ls, users, caller, email, relationship, permissions, now);
    if res.0 == Created {
      var out := res.1;
      var l := out[|ls|];
      assert !HasPair(ls, l.patient, l.caregiver);
      assert forall i :: 0 <= i < |ls| ==> out[i] == ls[i];
    }
  }

  /**
   * The address counts only through its normal form: inviting by any spelling
   * of an address (other case, surrounding blanks) is inviting by the stored
   * one, and a user whose stored address is that form is always found.
   */
  lemma InviteNormalizesAddress(ls: seq<Link>, users: seq<User>, caller: nat, email: string, relationship: Option<string>,
                                permissions: Option<PermissionsPatch>, now: Time)
    ensures InviteOutcome(ls, users, caller, email, relationship, permissions, now)
      == InviteOutcome(ls, users, caller, NormalizeEmail(email), relationship, permissions, now)
    ensures (exists i :: 0 <= i < |users| && users[i].email == NormalizeEmail(email)) ==>
      InviteOutcome(ls, users, caller, email, relationship, permissions, now).0 != NotFound
  {
    NormalizeEmailIdempotent(email);
  }

  // ===========================================================================
  // PATCH /api/caregivers/:id/{accept,decline,revoke}, PUT /api/caregivers/:id/permissions

  /** `Caregiver.findOne({ _id: id, caregiver: caller, status: 'pending' })` finds it. */
  predicate InvitedPending(ls: seq<Link>, id: nat, caller: nat)
  {
    id < |ls| && ls[id].caregiver == caller && ls[id].status == Pending
  }

  /** `Caregiver.findOne({ _id: id, patient: caller })` finds it. */
  predicate IsPatientOf(ls: seq<Link>, id: nat, caller: nat)
  {
    id < |ls| && ls[id].patient == caller
  }

  datatype Answer = Accept | Decline

  function Answered(l: Link, a: Answer, now: Time): Link
  {
    match a
    case Accept => AcceptedRecord(l, now)
    case Decline => DeclinedRecord(l)
  }

  /** The invitee answers: 404 and no change unless it is a pending invitation addressed to the caller. */
  function AnswerOutcome(ls: seq<Link>, id: nat, caller: nat, a: Answer, now: Time): (res: (Reply, seq<Link>))
    ensures res.0 == NotFound <==> !InvitedPending(ls, id, caller)
    ensures res.0 == Ok || res.0 == NotFound
    ensures res.0 == NotFound ==> res.1 == ls
    ensures res.0 == Ok ==>
      |res.1| == |ls| && res.1[id] == Answered(ls[id], a, now)
      && forall j :: 0 <= j < |ls| && j != id ==> res.1[j] == ls[j]
  {
    if InvitedPending(ls, id, caller) then (Ok, ls[id := Answered(ls[id], a, now)]) else (NotFound, ls)
  }

  /** The patient revokes: 404 and no change unless the caller is the patient; any status is revoked. */
  function RevokeOutcome(ls: seq<Link>, id: nat, caller: nat, now: Time): (res: (Reply, seq<Link>))
    ensures res.0 == NotFound <==> !IsPatientOf(ls, id, caller)
    ensures res.0 == Ok || res.0 == NotFound
    ensures res.0 == NotFound ==> res.1 == ls
    ensures res.0 == Ok ==>
      |res.1| == |ls| && res.1[id] == RevokedRecord(ls[id], now)
      && forall j :: 0 <= j < |ls| && j != id ==> res.1[j] == ls[j]
  {
    if IsPatientOf(ls, id, caller) then (Ok, ls[id := RevokedRecord(ls[id], now)]) else (NotFound, ls)
  }

  /** The patient updates permissions: a shallow merge, in any status. */
  function PermissionsOutcome(ls: seq<Link>, id: nat, caller: nat, patch: PermissionsPatch): (res: (Reply, seq<Link>))
    ensures res.0 == NotFound <==> !IsPatientOf(ls, id, caller)
    ensures res.0 == Ok || res.0 == NotFound
    ensures res.0 == NotFound ==> res.1 == ls
    ensures res.0 == Ok ==>
      |res.1| == |ls| && res.1[id] == PermissionsUpdated(ls[id], patch)
      && forall j :: 0 <= j < |ls| && j != id ==> res.1[j] == ls[j]
  {
    if IsPatientOf(ls, id, caller) then (Ok, ls[id := PermissionsUpdated(ls[id], patch)]) else (NotFound, ls)
  }

  /** None of the updates changes who is linked to whom. */
  lemma UpdatesKeepWellFormed(ls: seq<Link>, id: nat, caller: nat, a: Answer, patch: PermissionsPatch, now: Time)
    requires WellFormed(ls)
    ensures WellFormed(AnswerOutcome(ls, id, caller, a, now).1)
    ensures WellFormed(RevokeOutcome(ls, id, caller, now).1)
    ensures WellFormed(PermissionsOutcome(ls, id, caller, patch).1)
  {
  }

  /**
   * An invitation is answered once: after it is accepted or declined neither
   * answer finds it again; a revoked one cannot be accepted either.
   */
  lemma AnsweredOnce(ls: seq<Link>, id: nat, caller: nat, a: Answer, b: Answer, now: Time, later: Time)
    requires InvitedPending(ls, id, caller)
    ensures var once := AnswerOutcome(ls, id, caller, a, now).1;
      AnswerOutcome(once, id, caller, b, later) == (NotFound, once)
    ensures var revoked := RevokeOutcome(ls, id, ls[id].patient, now).1;
      AnswerOutcome(revoked, id, caller, b, later) == (NotFound, revoked)
  {
  }

  /**
   * In a well-formed collection the two sides cannot act for each other: the
   * patient cannot answer their own invitation, and the caregiver can neither
   * revoke nor change permissions.
   */
  lemma SidesAreSeparate(ls: seq<Link>, id: nat, a: Answer, patch: PermissionsPatch, now: Time)
    requires WellFormed(ls) && id < |ls|
    ensures AnswerOutcome(ls, id, ls[id].patient, a, now).0 == NotFound
    ensures RevokeOutcome(ls, id, ls[id].caregiver, now).0 == NotFound
    ensures PermissionsOutcome(ls, id, ls[id].caregiver, patch).0 == NotFound
  {
  }

  // ===========================================================================
  // GET /api/caregivers, /api/caregivers/patients, /api/caregivers/pending

  function CreatedKey(l: Link): int
  {
    l.createdAt
  }

  predicate CaregiverOfCaller(caller: nat, l: Link)
  {
    l.patient == caller
  }

  predicate ActivePatient(caller: nat, l: Link)
  {
    l.caregiver == caller && l.status == Active
  }

  predicate PendingInvitation(caller: nat, l: Link)
  {
    l.caregiver == caller && l.status == Pending
  }

  /** The caller's caregivers in every status, newest first. */
  function Caregivers(ls: seq<Link>, caller: nat): (out: seq<Link>)
    ensures forall i, j :: 0 <= i < j < |out| ==> out[i].createdAt >= out[j].createdAt
    ensures forall l :: multiset(out)[l] == if CaregiverOfCaller(caller, l) then multiset(ls)[l] else 0
  {
    var p := l => CaregiverOfCaller(caller, l);
    FilterSelects(ls, p);
    SortByDesc(Filter(ls, p), CreatedKey)
  }

  /** The relationships in which the caller is an active caregiver, newest first. */
  function Patients(ls: seq<Link>, caller: nat): (out: seq<Link>)
    ensures forall i, j :: 0 <= i < j < |out| ==> out[i].createdAt >= out[j].createdAt
    ensures forall l :: multiset(out)[l] == if ActivePatient(caller, l) then multiset(ls)[l] else 0
  {
    var p := l => ActivePatient(caller, l);
    FilterSelects(ls, p);
    SortByDesc(Filter(ls, p), CreatedKey)
  }

  /** The invitations waiting for the caller's answer, newest first. */
  function PendingInvitations(ls: seq<Link>, caller: nat): (out: seq<Link>)
    ensures forall i, j :: 0 <= i < j < |out| ==> out[i].createdAt >= out[j].createdAt
    ensures forall l :: multiset(out)[l] == if PendingInvitation(caller, l) then multiset(ls)[l] else 0
  {
    var p := l => PendingInvitation(caller, l);
    FilterSelects(ls, p);
    SortByDesc(Filter(ls, p), CreatedKey)
  }

  /** Accepting moves an invitation from the caller's pending list to their patients. */
  lemma AcceptMovesToPatients(ls: seq<Link>, id: nat, caller: nat, now: Time)
    requires Indexed(ls) && InvitedPending(ls, id, caller)
    ensures var after := AnswerOutcome(ls, id, caller, Accept, now).1;
      && AcceptedRecord(ls[id], now) in Patients(after, caller)
      && ls[id] !in PendingInvitations(after, caller)
  {
    var after := AnswerOutcome(ls, id, caller, Accept, now).1;
    var a := AcceptedRecord(ls[id], now);
    assert after[id] == a;
    assert multiset(Patients(after, caller))[a] == multiset(after)[a];
    assert ls[id] !in after by {
      forall j | 0 <= j < |after| ensures after[j] != ls[id] {
        if j != id {
          assert after[j].id == j;
        }
      }
    }
    assert multiset(PendingInvitations(after, caller))[ls[id]] == multiset(after)[ls[id]];
  }

  // ===========================================================================
  // The collection

  class CaregiverCollection {
    var docs: seq<CaregiverDoc>

    ghost predicate Valid()
      reads this, docs
    {
      && (forall i, j :: 0 <= i < j < |docs| ==> docs[i] != docs[j])
      && WellFormed(Records())
    }

    /** The values of all documents, in collection order. */
    function Records(): (ls: seq<Link>)
      reads this, docs
      ensures |ls| == |docs|
      ensures forall i :: 0 <= i < |docs| ==> ls[i] == docs[i].View()
    {
      seq(|docs|, i requires 0 <= i < |docs| reads this, docs => docs[i].View())
    }

    constructor ()
      ensures Valid() && Records() == []
    {
      docs := [];
    }

    method Invite(users: seq<User>, caller: nat, email: string, relationship: Option<string>,
                  permissions: Option<PermissionsPatch>, now: Time)
      returns (reply: Reply)
      requires Valid()
      modifies this
      ensures Valid()
      ensures (reply, Records()) == InviteOutcome(old(Records()), users, caller, email, relationship, permissions, now)
    {
      ghost var before := Records();
      var caregiverUser := Invitee(users, email);
      if caregiverUser.None? {
        return NotFound;
      }
      if caregiverUser.value.id == caller {
        return BadRequest;
      }
      var existing := HasPair(Records(), caller, caregiverUser.value.id);
      if existing {
        return BadRequest;
      }
      if relationship.None? || ParseRelationship(relationship.value).None? {
        return ServerError;
      }
      InviteKeepsWellFormed(before, users, caller, email, relationship, permissions, now);
      var caregiver := new CaregiverDoc(|docs|, caller, caregiverUser.value.id, ParseRelationship(relationship.value).value,
                                        permissions, now);
      assert InviteOutcome(before, users, caller, email, relationship, permissions, now) == (Created, before + [caregiver.View()]);
      Append(caregiver);
      reply := Created;
    }

    /** `save()` of a new document: it joins the collection at the end. */
    method Append(c: CaregiverDoc)
      requires Valid() && c !in docs && WellFormed(Records() + [c.View()])
      modifies this
      ensures Valid() && Records() == old(Records()) + [c.View()]
    {
      ghost var before := Records();
      docs := docs + [c];
      assert Records() == before + [c.View()];
    }

    /** The accept and decline handlers. */
    method Answer(id: nat, caller: nat, a: Answer, now: Time) returns (reply: Reply)
      requires Valid()
      modifies docs
      ensures Valid()
      ensures (reply, Records()) == AnswerOutcome(old(Records()), id, caller, a, now)
    {
      if id >= |docs| || docs[id].caregiver != caller || docs[id].status != Pending {
        return NotFound;
      }
      ghost var before := Records();
      var caregiver := docs[id];
      match a {
        case Accept => caregiver.AcceptInvitation(now);
        case Decline => caregiver.DeclineInvitation();
      }
      reply := Ok;
      assert Records() == before[id := caregiver.View()];
      UpdatesKeepWellFormed(before, id, caller, a, EmptyPatch, now);
    }

    method Revoke(id: nat, caller: nat, now: Time) returns (reply: Reply)
      requires Valid()
      modifies docs
      ensures Valid()
      ensures (reply, Records()) == RevokeOutcome(old(Records()), id, caller, now)
    {
      if id >= |docs| || docs[id].patient != caller {
        return NotFound;
      }
      ghost var before := Records();
      var caregiver := docs[id];
      caregiver.RevokeAccess(now);
      reply := Ok;
      assert Records() == before[id := caregiver.View()];
      UpdatesKeepWellFormed(before, id, caller, Accept, EmptyPatch, now);
    }

    method UpdatePermissions(id: nat, caller: nat, patch: PermissionsPatch) returns (reply: Reply)
      requires Valid()
      modifies docs
      ensures Valid()
      ensures (reply, Records()) == PermissionsOutcome(old(Records()), id, caller, patch)
    {
      if id >= |docs| || docs[id].patient != caller {
        return NotFound;
      }
      ghost var before := Records();
      var caregiver := docs[id];
      caregiver.permissions := Merge(caregiver.permissions, patch);
      reply := Ok;
      assert Records() == before[id := caregiver.View()];
      UpdatesKeepWellFormed(before, id, caller, Accept, patch, 0);
    }
  }
}
