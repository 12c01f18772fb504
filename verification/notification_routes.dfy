/**
 * `PUT /api/notifications/preferences`: the caller's three notification
 * switches, each replaced by the request's value when the request names it
 * and kept otherwise, then saved on the user document.
 */
module NotificationRoutes {
  import opened Common
  import opened UserModel

  /** The body's `email`, `sms` and `push`: absent, or already cast to a boolean. */
  datatype PreferencesRequest = PreferencesRequest(email: Option<bool>, sms: Option<bool>, push: Option<bool>)

  const NoChange := PreferencesRequest(None, None, None)

  function Choose(given: Option<bool>, kept: bool): bool
  {
    if given.Some? then given.value else kept
  }

  /** `x !== undefined ? x : user.notificationPreferences.x`, for each of the three switches. */
  function MergePreferences(p: Preferences, req: PreferencesRequest): (r: Preferences)
    ensures req.email.Some? ==> r.email == req.email.value
    ensures req.email.None? ==> r.email == p.email
    ensures req.sms.Some? ==> r.sms == req.sms.value
    ensures req.sms.None? ==> r.sms == p.sms
    ensures req.push.Some? ==> r.push == req.push.value
    ensures req.push.None? ==> r.push == p.push
  {
    Preferences(Choose(req.email, p.email), Choose(req.sms, p.sms), Choose(req.push, p.push))
  }

  /**
   * An empty body changes nothing, sending the same body twice is sending it
   * once, and a body naming all three switches makes the old ones irrelevant.
   */
  lemma MergePreferencesLaws(p: Preferences, q: Preferences, req: PreferencesRequest)
    ensures MergePreferences(p, NoChange) == p
    ensures MergePreferences(MergePreferences(p, req), req) == MergePreferences(p, req)
    ensures req.email.Some? && req.sms.Some? && req.push.Some? ==>
      MergePreferences(p, req) == MergePreferences(q, req) == Preferences(req.email.value, req.sms.value, req.push.value)
  {
  }

  /** The user `caller` with the request merged into its preferences. */
  function WithPreferences(u: User, req: PreferencesRequest): User
  {
    u.(notificationPreferences := MergePreferences(u.notificationPreferences, req))
  }

  /**
   * The handler on the users collection: 404 and nothing saved when the
   * caller's account no longer exists, otherwise 200 with exactly that
   * user's preferences merged and every other field and user untouched.
   */
  function PreferencesOutcome(users: seq<User>, caller: nat, req: PreferencesRequest): (res: (Reply, seq<User>))
    ensures res.0 == NotFound <==> IndexOfUser(users, caller).None?
    ensures res.0 == Ok || res.0 == NotFound
    ensures res.0 == NotFound ==> res.1 == users
    ensures |res.1| == |users|
    ensures forall j :: 0 <= j < |users| ==>
      res.1[j].(notificationPreferences := users[j].notificationPreferences) == users[j]
    ensures forall j :: 0 <= j < |users| && users[j].id != caller ==> res.1[j] == users[j]
    ensures res.0 == Ok ==>
      exists j :: 0 <= j < |users| && users[j].id == caller
        && res.1[j].notificationPreferences == MergePreferences(users[j].notificationPreferences, req)
  {
    match IndexOfUser(users, caller)
    case None => (NotFound, users)
    case Some(i) => (Ok, users[i := WithPreferences(users[i], req)])
  }

  /** Only the preferences change, so the collection keeps its unique ids and addresses. */
  lemma PreferencesKeepUnique(users: seq<User>, caller: nat, req: PreferencesRequest)
    requires UniqueUsers(users)
    ensures UniqueUsers(PreferencesOutcome(users, caller, req).1)
  {
    var after := PreferencesOutcome(users, caller, req).1;
    forall i, j | 0 <= i < j < |after|
      ensures after[i].id != after[j].id && after[i].email != after[j].email
    {
      assert after[i].id == users[i].id && after[i].email == users[i].email;
      assert after[j].id == users[j].id && after[j].email == users[j].email;
    }
  }

  /** Repeating the same request leaves the collection as the first one did. */
  lemma PreferencesIdempotent(users: seq<User>, caller: nat, req: PreferencesRequest)
    ensures var once := PreferencesOutcome(users, caller, req);
      PreferencesOutcome(once.1, caller, req) == once
  {
    match IndexOfUser(users, caller)
    case None =>
    case Some(i) =>
      var once := users[i := WithPreferences(users[i], req)];
      assert forall j :: 0 <= j < i ==> once[j].id != caller;
      assert IndexOfUser(once, caller) == Some(i) by {
        FirstIndex(once, caller, i);
      }
      assert once[i := WithPreferences(once[i], req)] == once;
  }

  /** `IndexOfUser` finds the first position holding the id. */
  lemma FirstIndex(users: seq<User>, id: nat, i: nat)
    requires i < |users| && users[i].id == id
    requires forall j :: 0 <= j < i ==> users[j].id != id
    ensures IndexOfUser(users, id) == Some(i)
  {
  }

  /** The handler as it runs on the collection: look the caller up, overwrite the preferences, save. */
  method UpdatePreferences(c: UserCollection, caller: nat, req: PreferencesRequest) returns (reply: Reply)
    requires c.Valid()
    modifies c
    ensures c.Valid()
    ensures (reply, c.users) == PreferencesOutcome(old(c.users), caller, req)
  {
    PreferencesKeepUnique(c.users, caller, req);
    var found := IndexOfUser(c.users, caller);
    if found.None? {
      return NotFound;
    }
    var i := found.value;
    c.users := c.users[i := WithPreferences(c.users[i], req)];
    reply := Ok;
  }
}
