/**
 * The reminder endpoints: the three listings (all, today, upcoming), manual
 * creation, the four owner-guarded actions (taken, missed, snooze, skip) and
 * the status statistics with the adherence rate.
 *
 * Query-string dates arrive already read as instants (`Option<Time>`; an
 * absent or empty parameter is `None`).
 */
module ReminderRoutes {
  import opened Common
  import opened ReminderModel
  import opened ReminderStore
  import opened MedicationModel
  import opened ReminderScheduler

  function TimeKey(r: Reminder): int
  {
    r.scheduledTime
  }

  // ===========================================================================
  // GET /api/reminders

  /** Query-string truthiness: an absent or empty parameter sets no condition. */
  predicate Given(p: Option<string>)
  {
    p.Some? && p.value != ""
  }

  datatype ListQuery = ListQuery(
    status: Option<string>,
    startDate: Option<Time>,
    endDate: Option<Time>,
    medication: Option<nat>)

  /** Either bound may be absent; both are inclusive. */
  predicate InRange(t: Time, lo: Option<Time>, hi: Option<Time>)
  {
    (lo.Some? ==> lo.value <= t) && (hi.Some? ==> t <= hi.value)
  }

  predicate ListMatches(q: ListQuery, caller: nat, r: Reminder)
  {
    && r.user == caller
    && (Given(q.status) ==> StatusName(r.status) == q.status.value)
    && InRange(r.scheduledTime, q.startDate, q.endDate)
    && (q.medication.Some? ==> r.medication == q.medication.value)
  }

  /** The caller's reminders that pass the optional filters, latest first. */
  function ListReminders(rs: seq<Reminder>, caller: nat, q: ListQuery): (out: seq<Reminder>)
    ensures forall i, j :: 0 <= i < j < |out| ==> out[i].scheduledTime >= out[j].scheduledTime
    ensures forall r :: multiset(out)[r] == if ListMatches(q, caller, r) then multiset(rs)[r] else 0
  {
    var p := r => ListMatches(q, caller, r);
    FilterSelects(rs, p);
    SortByDesc(Filter(rs, p), TimeKey)
  }

  /** Without parameters the listing is all of the caller's reminders. */
  lemma ListWithoutFilters(rs: seq<Reminder>, caller: nat, r: Reminder)
    ensures multiset(ListReminders(rs, caller, ListQuery(None, None, None, None)))[r]
         == if r.user == caller then multiset(rs)[r] else 0
  {
  }

  /** A status parameter that names no status selects nothing. */
  lemma UnknownStatusSelectsNothing(rs: seq<Reminder>, caller: nat, q: ListQuery)
    requires Given(q.status)
    requires forall s: Status :: StatusName(s) != q.status.value
    ensures ListReminders(rs, caller, q) == []
  {
    var out := ListReminders(rs, caller, q);
    assert forall r :: !ListMatches(q, caller, r);
    assert multiset(out) == multiset{};
  }

  // ===========================================================================
  // GET /api/reminders/today

  predicate InToday(caller: nat, now: Time, r: Reminder)
  {
    r.user == caller && Midnight(now) <= r.scheduledTime <= Midnight(now) + DAY - 1
  }

  /** The caller's reminders from local midnight to 23:59:59.999, earliest first. */
  function TodayReminders(rs: seq<Reminder>, caller: nat, now: Time): (out: seq<Reminder>)
    ensures Ascending(out, TimeKey)
    ensures forall r :: multiset(out)[r] == if InToday(caller, now, r) then multiset(rs)[r] else 0
  {
    var p := r => InToday(caller, now, r);
    FilterSelects(rs, p);
    SortBy(Filter(rs, p), TimeKey)
  }

  /** The closed range of `/today` is exactly the calendar day of `now`. */
  lemma TodayIsCalendarDay(now: Time, t: Time)
    ensures Midnight(now) <= t <= Midnight(now) + DAY - 1 <==> DayNumber(t) == DayNumber(now)
  {
    var d := DayNumber(now);
    if Midnight(now) <= t <= Midnight(now) + DAY - 1 {
      assert d * DAY <= t < d * DAY + DAY;
      assert t / DAY == d;
    }
  }

  // ===========================================================================
  // GET /api/reminders/upcoming

  const UpcomingLimit: nat := 20
  const Week: int := 7 * DAY

  predicate UpcomingMatches(caller: nat, now: Time, r: Reminder)
  {
    r.user == caller && r.status == Pending && now <= r.scheduledTime <= now + Week
  }

  function Take<T>(s: seq<T>, n: nat): (r: seq<T>)
    ensures |r| == if |s| <= n then |s| else n
    ensures r == s[..|r|]
  {
    if |s| <= n then s else s[..n]
  }

  function UpcomingFilter(caller: nat, now: Time): Reminder -> bool
  {
    r => UpcomingMatches(caller, now, r)
  }

  /**
   * The caller's pending reminders of the coming week, earliest first, at
   * most 20, each at most as often as the collection holds it.
   */
  function Upcoming(rs: seq<Reminder>, caller: nat, now: Time): (out: seq<Reminder>)
    ensures |out| <= UpcomingLimit
    ensures Ascending(out, TimeKey)
    ensures forall i :: 0 <= i < |out| ==> UpcomingMatches(caller, now, out[i]) && out[i] in rs
    ensures forall r :: multiset(out)[r] <= if UpcomingMatches(caller, now, r) then multiset(rs)[r] else 0
  {
    var p := UpcomingFilter(caller, now);
    var sorted := SortBy(Filter(rs, p), TimeKey);
    SelectedPrefix(rs, p, TimeKey, UpcomingLimit);
    Take(sorted, UpcomingLimit)
  }

  /**
   * The first `n` of the sorted selection are in order, are selected
   * elements of `s`, and hold each element at most as often as `s` does.
   */
  lemma SelectedPrefix<T>(s: seq<T>, p: T -> bool, key: T -> int, n: nat)
    ensures var out := Take(SortBy(Filter(s, p), key), n);
      && Ascending(out, key)
      && (forall i :: 0 <= i < |out| ==> p(out[i]) && out[i] in s)
      && forall x :: multiset(out)[x] <= if p(x) then multiset(s)[x] else 0
  {
    var sorted := SortBy(Filter(s, p), key);
    var out := Take(sorted, n);
    PrefixAscending(sorted, key, n);
    PrefixCounts(sorted, n);
    FilterSelects(s, p);
    forall i | 0 <= i < |out| ensures p(out[i]) && out[i] in s {
      assert out[i] in multiset(out);
    }
  }

  lemma PrefixAscending<T>(s: seq<T>, key: T -> int, n: nat)
    requires Ascending(s, key)
    ensures Ascending(Take(s, n), key)
  {
    var out := Take(s, n);
    forall i, j | 0 <= i < j < |out| ensures key(out[i]) <= key(out[j]) {
      assert out[i] == s[i] && out[j] == s[j];
    }
  }

  lemma PrefixCounts<T>(s: seq<T>, n: nat)
    ensures forall x :: multiset(Take(s, n))[x] <= multiset(s)[x]
  {
    var out := Take(s, n);
    assert s == out + s[|out|..];
    assert multiset(s) == multiset(out) + multiset(s[|out|..]);
  }

  /**
   * `/upcoming` keeps the earliest matches: it returns every match when there
   * are at most 20, and otherwise no match it leaves out is earlier than one
   * it returns.
   */
  lemma {:induction false} UpcomingEarliest(rs: seq<Reminder>, caller: nat, now: Time, r: Reminder)
    requires r in rs && UpcomingMatches(caller, now, r)
    ensures var out := Upcoming(rs, caller, now);
      r !in out ==> |out| == UpcomingLimit && forall i :: 0 <= i < |out| ==> out[i].scheduledTime <= r.scheduledTime
  {
    var p := UpcomingFilter(caller, now);
    var sel := Filter(rs, p);
    var sorted := SortBy(sel, TimeKey);
    var out := Take(sorted, UpcomingLimit);
    FilterCount(rs, p, r);
    assert r in multiset(sorted);
    var k :| 0 <= k < |sorted| && sorted[k] == r;
    if r !in out {
      assert k >= |out|;
      forall i | 0 <= i < |out| ensures out[i].scheduledTime <= r.scheduledTime {
        assert out[i] == sorted[i];
        assert TimeKey(sorted[i]) <= TimeKey(sorted[k]);
      }
    }
  }

  // ===========================================================================
  // POST /api/reminders

  /**
   * Manual creation: 404 unless the medication is the caller's; a missing or
   * unreadable time is a validation error (500); otherwise a new pending
   * reminder is appended. No lookup for an existing reminder is made.
   */
  function CreateOutcome(rs: seq<Reminder>, meds: seq<Medication>, caller: nat, medicationId: nat, scheduledTime: Option<Time>)
    : (res: (Reply, seq<Reminder>))
    ensures res.0 == NotFound <==> !OwnsMedication(meds, medicationId, caller)
    ensures res.0 == Created <==> OwnsMedication(meds, medicationId, caller) && scheduledTime.Some?
    ensures res.0 in {NotFound, Created, ServerError}
    ensures res.0 == Created ==> res.1 == rs + [NewReminder(|rs|, caller, medicationId, scheduledTime.value)]
    ensures res.0 != Created ==> res.1 == rs
  {
    if !OwnsMedication(meds, medicationId, caller) then (NotFound, rs)
    else if scheduledTime.None? then (ServerError, rs)
    else (Created, rs + [NewReminder(|rs|, caller, medicationId, scheduledTime.value)])
  }

  /** Creating the same slot twice leaves two reminders with one key. */
  lemma ManualCreateDuplicates(rs: seq<Reminder>, meds: seq<Medication>, caller: nat, medicationId: nat, t: Time)
    requires OwnsMedication(meds, medicationId, caller)
    ensures var once := CreateOutcome(rs, meds, caller, medicationId, Some(t)).1;
      var twice := CreateOutcome(once, meds, caller, medicationId, Some(t)).1;
      |twice| == |rs| + 2 && Key(twice[|rs|]) == Key(twice[|rs| + 1]) && !FreshKeysFrom(twice, |rs|)
  {
    var once := CreateOutcome(rs, meds, caller, medicationId, Some(t)).1;
    var twice := CreateOutcome(once, meds, caller, medicationId, Some(t)).1;
    assert Key(twice[|rs|]) == Key(twice[|rs| + 1]);
  }

  method CreateReminder(store: ReminderCollection, meds: seq<Medication>, caller: nat, medicationId: nat, scheduledTime: Option<Time>)
    returns (reply: Reply)
    requires store.Valid()
    modifies store
    ensures store.Valid()
    ensures (reply, store.Records()) == CreateOutcome(old(store.Records()), meds, caller, medicationId, scheduledTime)
  {
    var medication := FindMedication(meds, medicationId);
    if medication.None? || medication.value.user != caller {
      return NotFound;
    }
    if scheduledTime.None? {
      return ServerError;
    }
    var _ := store.Create(caller, medicationId, scheduledTime.value);
    reply := Created;
  }

  // ===========================================================================
  // PATCH /api/reminders/:id/{taken,missed,snooze,skip}

  datatype Action =
    | TakeAction(dosage: Option<DosageTaken>, notes: Option<string>)
    | MissAction
    | SnoozeAction(minutes: MinutesArg)
    | SkipAction

  /**
   * The body's `minutes` as `minutes * 60000` sees it: absent (the default of
   * 15 applies), JSON `null` (which multiplies as 0 and so is not replaced by
   * the default), a value that converts to the integer `n` (a number, or a
   * string holding one), or a value that converts to NaN.
   */
  datatype MinutesArg = Omitted | NullMinutes | Minutes(n: int) | NotANumber

  /** The minutes the snooze adds, or `None` when the product is NaN. */
  function SnoozeMinutes(m: MinutesArg): Option<int>
  {
    match m
    case Omitted => Some(15)
    case NullMinutes => Some(0)
    case Minutes(n) => Some(n)
    case NotANumber => None
  }

  /**
   * The save succeeds: only a snooze can fail, when its new time is NaN or
   * outside the range of a JavaScript date (an invalid date fails to cast).
   */
  predicate Saves(a: Action, now: Time)
  {
    a.SnoozeAction? ==>
      SnoozeMinutes(a.minutes).Some? && ValidTimeValue(SnoozeTarget(now, SnoozeMinutes(a.minutes).value))
  }

  function Applied(r: Reminder, a: Action, now: Time): Reminder
    requires Saves(a, now)
  {
    match a
    case TakeAction(dosage, notes) => TakenRecord(r, now, dosage, notes)
    case MissAction => MissedRecord(r, now)
    case SnoozeAction(minutes) => SnoozedRecord(r, now, SnoozeMinutes(minutes).value)
    case SkipAction => SkippedRecord(r)
  }

  /** `Reminder.findOne({ _id: id, user: caller })` finds it. */
  predicate Owns(rs: seq<Reminder>, id: nat, caller: nat)
  {
    id < |rs| && rs[id].user == caller
  }

  /**
   * An action on reminder `id`: 404 and no change unless it is the caller's,
   * 500 and no change when the save fails, otherwise the action is applied to
   * that reminder alone.
   */
  function Act(rs: seq<Reminder>, id: nat, caller: nat, a: Action, now: Time): (res: (Reply, seq<Reminder>))
    ensures res.0 == NotFound <==> !Owns(rs, id, caller)
    ensures res.0 == ServerError <==> Owns(rs, id, caller) && !Saves(a, now)
    ensures res.0 == Ok || res.0 == NotFound || res.0 == ServerError
    ensures res.0 != Ok ==> res.1 == rs
    ensures Owns(rs, id, caller) && Saves(a, now) ==>
      |res.1| == |rs| && res.1[id] == Applied(rs[id], a, now)
      && forall j :: 0 <= j < |rs| && j != id ==> res.1[j] == rs[j]
  {
    if !Owns(rs, id, caller) then (NotFound, rs)
    else if !Saves(a, now) then (ServerError, rs)
    else (Ok, rs[id := Applied(rs[id], a, now)])
  }

  /**
   * The actions keep every reminder's identity, owner and medication, and
   * leave all reminders but the addressed one alone.
   */
  lemma ActKeepsIdentity(rs: seq<Reminder>, id: nat, caller: nat, a: Action, now: Time)
    ensures var out := Act(rs, id, caller, a, now).1;
      |out| == |rs| && forall j :: 0 <= j < |rs| ==>
        out[j].id == rs[j].id && out[j].user == rs[j].user && out[j].medication == rs[j].medication
        && (j != id ==> out[j] == rs[j])
  {
  }

  /** Skip and missed overwrite whatever status the reminder had, a terminal one included. */
  lemma ActionsIgnorePriorStatus(rs: seq<Reminder>, id: nat, caller: nat, now: Time)
    requires Owns(rs, id, caller)
    ensures Act(rs, id, caller, SkipAction, now).1[id].status == Skipped
    ensures Act(rs, id, caller, MissAction, now).1[id].status == Missed
    ensures Act(rs, id, caller, SnoozeAction(Omitted), now).0 == Ok ==>
      Act(rs, id, caller, SnoozeAction(Omitted), now).1[id].status == Pending
  {
  }

  /**
   * What the snooze body does with `minutes`: none given moves the reminder 15
   * minutes past `now`, `null` moves it to `now` itself, and a value that is
   * not a number fails with 500 and changes nothing.
   */
  lemma SnoozeArguments(rs: seq<Reminder>, id: nat, caller: nat, now: Time)
    requires Owns(rs, id, caller)
    ensures ValidTimeValue(now + 15 * MINUTE) ==>
      Act(rs, id, caller, SnoozeAction(Omitted), now).1[id].scheduledTime == now + 15 * MINUTE
    ensures ValidTimeValue(now) ==>
      Act(rs, id, caller, SnoozeAction(NullMinutes), now).1[id].scheduledTime == now
    ensures Act(rs, id, caller, SnoozeAction(NotANumber), now) == (ServerError, rs)
    ensures forall n: int :: !ValidTimeValue(now + n * MINUTE) ==>
      Act(rs, id, caller, SnoozeAction(Minutes(n)), now) == (ServerError, rs)
  {
  }

  method MarkTaken(store: ReminderCollection, id: nat, caller: nat, now: Time, dosage: Option<DosageTaken>, notes: Option<string>)
    returns (reply: Reply)
    requires store.Valid()
    modifies store.docs
    ensures store.Valid()
    ensures (reply, store.Records()) == Act(old(store.Records()), id, caller, TakeAction(dosage, notes), now)
  {
    if id >= |store.docs| || store.docs[id].user != caller {
      return NotFound;
    }
    store.docs[id].MarkAsTaken(now, dosage, notes);
    reply := Ok;
    assert store.Records() == old(store.Records())[id := store.docs[id].View()];
  }

  method MarkMissed(store: ReminderCollection, id: nat, caller: nat, now: Time)
    returns (reply: Reply)
    requires store.Valid()
    modifies store.docs
    ensures store.Valid()
    ensures (reply, store.Records()) == Act(old(store.Records()), id, caller, MissAction, now)
  {
    if id >= |store.docs| || store.docs[id].user != caller {
      return NotFound;
    }
    store.docs[id].MarkAsMissed(now);
    reply := Ok;
    assert store.Records() == old(store.Records())[id := store.docs[id].View()];
  }

  method SnoozeReminder(store: ReminderCollection, id: nat, caller: nat, now: Time, minutes: MinutesArg)
    returns (reply: Reply)
    requires store.Valid()
    modifies store.docs
    ensures store.Valid()
    ensures (reply, store.Records()) == Act(old(store.Records()), id, caller, SnoozeAction(minutes), now)
  {
    if id >= |store.docs| || store.docs[id].user != caller {
      return NotFound;
    }
    var m := SnoozeMinutes(minutes);
    if m.None? || !ValidTimeValue(SnoozeTarget(now, m.value)) {
      return ServerError;
    }
    store.docs[id].Snooze(now, m.value);
    reply := Ok;
    assert store.Records() == old(store.Records())[id := store.docs[id].View()];
  }

  method SkipReminder(store: ReminderCollection, id: nat, caller: nat, now: Time)
    returns (reply: Reply)
    requires store.Valid()
    modifies store.docs
    ensures store.Valid()
    ensures (reply, store.Records()) == Act(old(store.Records()), id, caller, SkipAction, now)
  {
    if id >= |store.docs| || store.docs[id].user != caller {
      return NotFound;
    }
    var reminder := store.docs[id];
    reminder.status := Skipped;
    reply := Ok;
    assert store.Records() == old(store.Records())[id := reminder.View()];
  }

  // ===========================================================================
  // GET /api/reminders/stats (and the provider adherence endpoint)

  /** The order in which the per-status groups are listed. */
  const StatusOrder: seq<Status> := [Pending, Taken, Missed, Skipped, Snoozed]

  datatype StatusCount = StatusCount(status: Status, count: nat)

  function CountStatus(rs: seq<Reminder>, s: Status): (n: nat)
    ensures n <= |rs|
  {
    if rs == [] then 0
    else (if rs[0].status == s then 1 else 0) + CountStatus(rs[1..], s)
  }

  /** `$group` by status: one entry per status that occurs, with its count. */
  function GroupsOf(rs: seq<Reminder>, order: seq<Status>): (gs: seq<StatusCount>)
    ensures forall i :: 0 <= i < |gs| ==> gs[i].count > 0 && gs[i].count == CountStatus(rs, gs[i].status) && gs[i].status in order
  {
    if order == [] then []
    else
      var rest := GroupsOf(rs, order[1..]);
      var n := CountStatus(rs, order[0]);
      if n > 0 then [StatusCount(order[0], n)] + rest else rest
  }

  /** Every status that occurs in `order` and among the records has its group, at position `i`. */
  lemma {:induction false} GroupsCover(rs: seq<Reminder>, order: seq<Status>, s: Status) returns (i: nat)
    requires s in order && CountStatus(rs, s) > 0
    ensures i < |GroupsOf(rs, order)| && GroupsOf(rs, order)[i].status == s
  {
    var n := CountStatus(rs, order[0]);
    if order[0] == s {
      i := 0;
    } else {
      assert s in order[1..];
      var rest := GroupsOf(rs, order[1..]);
      var k := GroupsCover(rs, order[1..], s);
      if n > 0 {
        i := k + 1;
        assert GroupsOf(rs, order) == [StatusCount(order[0], n)] + rest;
      } else {
        i := k;
        assert GroupsOf(rs, order) == rest;
      }
    }
  }

  function Groups(rs: seq<Reminder>): seq<StatusCount>
  {
    GroupsOf(rs, StatusOrder)
  }

  /** `stats.reduce((acc, stat) => acc + stat.count, 0)`. */
  function Total(gs: seq<StatusCount>): nat
  {
    if gs == [] then 0 else gs[0].count + Total(gs[1..])
  }

  /** `stats.find(s => s._id === 'taken')?.count || 0`. */
  function TakenCount(gs: seq<StatusCount>): nat
  {
    if gs == [] then 0 else if gs[0].status == Taken then gs[0].count else TakenCount(gs[1..])
  }

  /**
   * `((taken / total) * 100).toFixed(2)` in hundredths of a percent: the
   * nearest integer to `taken * 10000 / total`, halves rounded up; 0 when
   * there is nothing to count.
   */
  function AdherenceHundredths(taken: nat, total: nat): nat
  {
    if total > 0 then (taken * 20000 + total) / (2 * total) else 0
  }

  datatype Stats = Stats(groups: seq<StatusCount>, total: nat, adherence: nat)

  function Summarize(matched: seq<Reminder>): Stats
  {
    var gs := Groups(matched);
    var total := Total(gs);
    Stats(gs, total, AdherenceHundredths(TakenCount(gs), total))
  }

  function SumCounts(rs: seq<Reminder>, order: seq<Status>): nat
  {
    if order == [] then 0 else CountStatus(rs, order[0]) + SumCounts(rs, order[1..])
  }

  lemma {:induction false} TotalOfGroups(rs: seq<Reminder>, order: seq<Status>)
    ensures Total(GroupsOf(rs, order)) == SumCounts(rs, order)
  {
    if order != [] {
      TotalOfGroups(rs, order[1..]);
    }
  }

  lemma {:induction false} SumCountsStep(rs: seq<Reminder>, order: seq<Status>)
    requires rs != []
    requires forall i, j :: 0 <= i < j < |order| ==> order[i] != order[j]
    ensures SumCounts(rs, order) == (if rs[0].status in order then 1 else 0) + SumCounts(rs[1..], order)
  {
    if order != [] {
      SumCountsStep(rs, order[1..]);
      assert order == [order[0]] + order[1..];
      assert order[0] !in order[1..];
    }
  }

  lemma SumCountsEmpty(order: seq<Status>)
    ensures SumCounts([], order) == 0
  {
  }

  /** Every record has exactly one of the five statuses. */
  lemma {:induction false} CountsPartition(rs: seq<Reminder>)
    ensures SumCounts(rs, StatusOrder) == |rs|
  {
    if rs == [] {
      SumCountsEmpty(StatusOrder);
    } else {
      CountsPartition(rs[1..]);
      SumCountsStep(rs, StatusOrder);
      assert rs[0].status in StatusOrder;
    }
  }

  /** Every reminder falls into exactly one group, so the groups add up to the matched set. */
  lemma StatsTotal(matched: seq<Reminder>)
    ensures Summarize(matched).total == |matched|
  {
    TotalOfGroups(matched, StatusOrder);
    CountsPartition(matched);
  }

  lemma {:induction false} TakenOfGroups(rs: seq<Reminder>, order: seq<Status>)
    requires forall i, j :: 0 <= i < j < |order| ==> order[i] != order[j]
    ensures TakenCount(GroupsOf(rs, order)) == if Taken in order then CountStatus(rs, Taken) else 0
  {
    if order != [] {
      TakenOfGroups(rs, order[1..]);
    }
  }

  /** The taken figure is the number of taken reminders, 0 when there are none. */
  lemma StatsTaken(matched: seq<Reminder>)
    ensures TakenCount(Summarize(matched).groups) == CountStatus(matched, Taken)
  {
    TakenOfGroups(matched, StatusOrder);
  }

  lemma DivBounds(n: nat, d: nat)
    requires d > 0
    ensures d * (n / d) <= n < d * (n / d) + d
  {
  }

  lemma CancelLess(d: nat, a: int, b: int)
    requires d > 0 && d * a < d * b
    ensures a < b
  {
  }

  /** The rate is a percentage with two decimals: between 0.00 and 100.00, and the nearest one. */
  lemma AdherenceBounds(taken: nat, total: nat)
    requires taken <= total
    ensures 0 <= AdherenceHundredths(taken, total) <= 10000
    ensures total > 0 ==>
      2 * total * AdherenceHundredths(taken, total) <= taken * 20000 + total < 2 * total * AdherenceHundredths(taken, total) + 2 * total
    ensures taken == 0 ==> AdherenceHundredths(taken, total) == 0
    ensures 0 < taken == total ==> AdherenceHundredths(taken, total) == 10000
  {
    if total > 0 {
      var n := taken * 20000 + total;
      var d := 2 * total;
      var q := n / d;
      DivBounds(n, d);
      assert n < d * 10001;
      CancelLess(d, q, 10001);
      if taken == 0 {
        CancelLess(d, q, 1);
      }
      if taken == total {
        assert d * 10000 <= n;
        CancelLess(d, 9999, q);
      }
    }
  }

  /** What the statistics summarize: the owner's reminders, in the range when both bounds are given. */
  predicate StatsMatches(owner: nat, startDate: Option<Time>, endDate: Option<Time>, r: Reminder)
  {
    r.user == owner
    && (startDate.Some? && endDate.Some? ==> startDate.value <= r.scheduledTime <= endDate.value)
  }

  function StatsFilter(owner: nat, startDate: Option<Time>, endDate: Option<Time>): Reminder -> bool
  {
    r => StatsMatches(owner, startDate, endDate, r)
  }

  /** The `$match` stage of the statistics pipeline. */
  function StatsSelection(rs: seq<Reminder>, owner: nat, startDate: Option<Time>, endDate: Option<Time>): (matched: seq<Reminder>)
    ensures forall r :: multiset(matched)[r] == if StatsMatches(owner, startDate, endDate, r) then multiset(rs)[r] else 0
  {
    FilterSelects(rs, StatsFilter(owner, startDate, endDate));
    Filter(rs, StatsFilter(owner, startDate, endDate))
  }

  function ReminderStats(rs: seq<Reminder>, owner: nat, startDate: Option<Time>, endDate: Option<Time>): (st: Stats)
    ensures st.groups == Groups(StatsSelection(rs, owner, startDate, endDate))
    ensures st.total == |StatsSelection(rs, owner, startDate, endDate)|
    ensures TakenCount(st.groups) == CountStatus(StatsSelection(rs, owner, startDate, endDate), Taken)
    ensures TakenCount(st.groups) <= st.total
    ensures st.adherence <= 10000
    ensures st.total > 0 ==>
      2 * st.total * st.adherence <= TakenCount(st.groups) * 20000 + st.total < 2 * st.total * st.adherence + 2 * st.total
    ensures st.total == 0 ==> st.adherence == 0
  {
    var matched := StatsSelection(rs, owner, startDate, endDate);
    StatsTotal(matched);
    StatsTaken(matched);
    CountTakenBound(matched);
    AdherenceBounds(TakenCount(Summarize(matched).groups), |matched|);
    Summarize(matched)
  }

  // ---------------------------------------------------------------------------
  // The `$match` stage as written

  /**
   * A value as the aggregation pipeline compares it. Aggregation stages are
   * not cast by the schema, so the pipeline's `user` condition is the id's
   * text (`req.user.id`, `req.params.patientId`) while the stored `user` is an
   * ObjectId; values of different BSON types are never equal.
   */
  datatype BsonValue = ObjectIdValue(id: nat) | StringValue(text: string)

  /** The decimal text of an id: the form the pipeline receives it in. */
  function IdText(id: nat): string
  {
    (if id < 10 then "" else IdText(id / 10)) + [(('0' as int) + id % 10) as char]
  }

  /** The `$match` condition as written: the period, and the stored ObjectId against the id's text. */
  predicate StatsMatchesAsWritten(owner: nat, startDate: Option<Time>, endDate: Option<Time>, r: Reminder)
  {
    (startDate.Some? && endDate.Some? ==> startDate.value <= r.scheduledTime <= endDate.value)
    && ObjectIdValue(r.user) == StringValue(IdText(owner))
  }

  function StatsFilterAsWritten(owner: nat, startDate: Option<Time>, endDate: Option<Time>): Reminder -> bool
  {
    r => StatsMatchesAsWritten(owner, startDate, endDate, r)
  }

  /** The statistics the handlers compute as written: the pipeline over the uncast `$match`. */
  function ReminderStatsAsWritten(rs: seq<Reminder>, owner: nat, startDate: Option<Time>, endDate: Option<Time>)
    : (st: Stats)
    ensures st == Stats([], 0, 0)
  {
    var p := StatsFilterAsWritten(owner, startDate, endDate);
    FilterNone(rs, p);
    Summarize(Filter(rs, p))
  }

  /**
   * The discrepancy on one input: a single taken reminder of the caller is
   * counted by the intended statistics (total 1, rate 100.00) and missed by
   * the statistics as written (total 0, rate 0).
   */
  lemma StatsAsWrittenMissesOwnReminder(r: Reminder)
    requires r.status == Taken
    ensures ReminderStats([r], r.user, None, None).total == 1
    ensures ReminderStats([r], r.user, None, None).adherence == 10000
    ensures ReminderStatsAsWritten([r], r.user, None, None).total == 0
  {
    var st := ReminderStats([r], r.user, None, None);
    var matched := StatsSelection([r], r.user, None, None);
    assert multiset(matched)[r] == 1;
    assert |matched| == 1 by {
      assert |multiset(matched)| == |matched|;
      assert matched == Filter([r], StatsFilter(r.user, None, None));
    }
    assert matched == [r] by {
      assert r in multiset(matched);
    }
    assert CountStatus(matched, Taken) == 1;
  }

  lemma CountTakenBound(rs: seq<Reminder>)
    ensures CountStatus(rs, Taken) <= |rs|
  {
  }

  /** A single bound does not restrict the statistics: only a pair does. */
  lemma StatsNeedBothBounds(owner: nat, lo: Time, r: Reminder)
    requires r.user == owner
    ensures StatsMatches(owner, Some(lo), None, r) && StatsMatches(owner, None, Some(lo), r)
  {
  }
}
