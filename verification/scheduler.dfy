/**
 * The reminder engine: the four sweeps the scheduler runs over the reminder
 * collection, each invoked explicitly with the current time.
 *
 * - `GenerateDailyReminders` turns today's schedule slots of active
 *   medications into pending reminders, once per (user, medication, time).
 * - `CheckAndSendReminders` notifies pending reminders due within the next
 *   five minutes and records the notification bookkeeping.
 * - `CheckMissedReminders` marks pending reminders more than thirty minutes
 *   late as missed.
 * - `CheckRefillReminders` lists the medications whose remaining quantity has
 *   reached the refill threshold.
 *
 * Each sweep is a method proved equal to a function on record values; the
 * lemmas state the properties of those functions. Every sweep body runs inside
 * one try/catch in the source, so the first exception ends the whole sweep:
 * the functions carry a `completed` flag that turns false at that point, and
 * the records already written stay written.
 */
module ReminderScheduler {
  import opened Common
  import opened ReminderModel
  import opened ReminderStore
  import opened MedicationModel
  import opened UserModel

  /** Look-ahead of the dispatcher. */
  const DispatchWindow: int := 5 * MINUTE
  /** Delay after which a pending reminder counts as missed. */
  const GracePeriod: int := 30 * MINUTE

  // ===========================================================================
  // Calendar: the process clock is read in UTC

  /** Whole days since the epoch (floor division: Dafny's `/` on a positive divisor). */
  function DayNumber(t: Time): int
  {
    t / DAY
  }

  /** Local midnight of the day containing `t`. */
  function Midnight(t: Time): (m: Time)
    ensures m <= t < m + DAY
    ensures m == DayNumber(t) * DAY
  {
    DayNumber(t) * DAY
  }

  /** The weekday of the day containing `t`; 1 January 1970 was a Thursday. */
  function WeekdayOf(t: Time): Weekday
  {
    var k := DayNumber(t) % 7;
    if k == 0 then Thursday
    else if k == 1 then Friday
    else if k == 2 then Saturday
    else if k == 3 then Sunday
    else if k == 4 then Monday
    else if k == 5 then Tuesday
    else Wednesday
  }

  lemma WeekdayOfEpoch()
    ensures WeekdayOf(0) == Thursday
    ensures WeekdayOf(4 * DAY) == Monday
  {
  }

  // ===========================================================================
  // Reading "HH:MM": time.split(':') and parseInt on each part

  predicate IsHexDigit(c: char)
  {
    IsDigit(c) || ('a' <= c <= 'f') || ('A' <= c <= 'F')
  }

  function DigitValue(c: char): (v: nat)
    requires IsHexDigit(c)
    ensures v < 16
    ensures IsDigit(c) ==> v < 10
  {
    if IsDigit(c) then c as int - '0' as int
    else if 'a' <= c <= 'f' then c as int - 'a' as int + 10
    else c as int - 'A' as int + 10
  }

  predicate IsRadixDigit(c: char, radix: nat)
  {
    if radix == 16 then IsHexDigit(c) else IsDigit(c)
  }

  /** The longest prefix of `s` made of digits of `radix`. */
  function LeadingDigits(s: string, radix: nat): (ds: string)
    ensures |ds| <= |s| && ds == s[..|ds|]
    ensures forall i :: 0 <= i < |ds| ==> IsRadixDigit(ds[i], radix)
    ensures |ds| < |s| ==> !IsRadixDigit(s[|ds|], radix)
  {
    if s != [] && IsRadixDigit(s[0], radix) then [s[0]] + LeadingDigits(s[1..], radix) else []
  }

  function DigitsIn(ds: string, radix: nat): nat
    requires radix == 10 || radix == 16
    requires forall i :: 0 <= i < |ds| ==> IsRadixDigit(ds[i], radix)
  {
    if ds == [] then 0
    else
      assert IsRadixDigit(ds[|ds| - 1], radix);
      radix * DigitsIn(ds[..|ds| - 1], radix) + DigitValue(ds[|ds| - 1])
  }

  /**
   * `parseInt(s)` without a radix: leading white space is skipped, then an
   * optional sign, then a `0x`/`0X` prefix selects base 16; the value is that
   * of the longest run of digits that follows. `None` is NaN.
   */
  function ParseInt(s: string): Option<int>
  {
    var t := TrimStart(s);
    var negative := t != [] && t[0] == '-';
    var u := if t != [] && (t[0] == '-' || t[0] == '+') then t[1..] else t;
    var hex := |u| >= 2 && u[0] == '0' && (u[1] == 'x' || u[1] == 'X');
    var radix := if hex then 16 else 10;
    var ds := LeadingDigits(if hex then u[2..] else u, radix);
    if ds == [] then None
    else
      var v: int := DigitsIn(ds, radix);
      Some(if negative then -v else v)
  }

  /** The first segment of `s.split(':')`. */
  function FirstSegment(s: string): string
  {
    if s == [] || s[0] == ':' then [] else [s[0]] + FirstSegment(s[1..])
  }

  /** The second segment of `s.split(':')`, absent when `s` has no colon. */
  function SecondSegment(s: string): Option<string>
  {
    if s == [] then None
    else if s[0] == ':' then Some(FirstSegment(s[1..]))
    else SecondSegment(s[1..])
  }

  /** `const [hours, minutes] = time.split(':')` read through `parseInt`. */
  function ParseClock(time: string): Option<(int, int)>
  {
    var h := ParseInt(FirstSegment(time));
    var m := if SecondSegment(time).Some? then ParseInt(SecondSegment(time).value) else None;
    if h.Some? && m.Some? then Some((h.value, m.value)) else None
  }

  /** A two-digit "HH:MM" string reads as the numbers it spells. */
  lemma ParseClockWellFormed(a: char, b: char, c: char, d: char)
    requires IsDigit(a) && IsDigit(b) && IsDigit(c) && IsDigit(d)
    ensures ParseClock([a, b, ':', c, d]) ==
      Some((10 * DigitValue(a) + DigitValue(b), 10 * DigitValue(c) + DigitValue(d)))
  {
    var s := [a, b, ':', c, d];
    assert s[1..][1..] == [':', c, d];
    assert FirstSegment([':', c, d]) == [];
    assert FirstSegment([b, ':', c, d]) == [b];
    assert FirstSegment(s) == [a, b];
    assert FirstSegment([c, d]) == [c, d] by {
      assert FirstSegment([d]) == [d];
    }
    assert SecondSegment([':', c, d]) == Some([c, d]);
    assert SecondSegment(s) == Some([c, d]);
    ParseTwoDigits(a, b);
    ParseTwoDigits(c, d);
  }

  lemma ParseTwoDigits(a: char, b: char)
    requires IsDigit(a) && IsDigit(b)
    ensures ParseInt([a, b]) == Some(10 * DigitValue(a) + DigitValue(b))
  {
    var s := [a, b];
    assert !IsSpace(a);
    assert TrimStart(s) == s;
    assert LeadingDigits([b], 10) == [b];
    assert LeadingDigits(s, 10) == s;
    assert s[..1] == [a];
    assert DigitsIn([a], 10) == DigitValue(a) by {
      assert [a][..0] == [];
    }
    assert DigitsIn(s, 10) == 10 * DigitValue(a) + DigitValue(b);
    assert !(s[1] == 'x' || s[1] == 'X') && s[0] != '-' && s[0] != '+';
  }

  /** Today's midnight moved by the parsed hours and minutes (`setHours(h, m, 0, 0)`). */
  function SlotTime(now: Time, hours: int, minutes: int): Time
  {
    Midnight(now) + hours * HOUR + minutes * MINUTE
  }

  /** A clock reading within 00:00-23:59 lands on the day of `now`. */
  lemma SlotTimeSameDay(now: Time, hours: int, minutes: int)
    requires 0 <= hours < 24 && 0 <= minutes < 60
    ensures Midnight(now) <= SlotTime(now, hours, minutes) < Midnight(now) + DAY
    ensures SlotTime(now, hours, minutes) - Midnight(now) == hours * HOUR + minutes * MINUTE
  {
  }

  // ===========================================================================
  // Due-reminder dispatcher

  /** The dispatcher's query: pending, not yet notified, and `now <= scheduledTime <= now + 5 min`. */
  predicate IsDue(r: Reminder, now: Time)
  {
    r.status == Pending && !r.notificationSent && now <= r.scheduledTime <= now + DispatchWindow
  }

  /** A call made to one of the notification collaborators (message texts are not modelled). */
  datatype Send =
    | EmailSend(to: string, medication: nat, scheduledTime: Time)
    | SmsSend(phone: string, medication: nat)
    | PushSend(user: nat, reminder: nat, medication: nat)

  /** The sends attempted for one reminder, in the order email, SMS, push. */
  function Attempts(u: User, m: Medication, r: Reminder): (s: seq<Send>)
    ensures u.notificationPreferences.email <==> EmailSend(u.email, m.id, r.scheduledTime) in s
    ensures SmsReachable(u) ==> SmsSend(u.phone.value, m.id) in s
    ensures u.notificationPreferences.push <==> PushSend(u.id, r.id, m.id) in s
    ensures forall i :: 0 <= i < |s| ==>
      (s[i].EmailSend? ==> u.notificationPreferences.email)
      && (s[i].SmsSend? ==> SmsReachable(u))
      && (s[i].PushSend? ==> u.notificationPreferences.push)
    ensures |s| <= 3
  {
    var p := u.notificationPreferences;
    (if p.email then [EmailSend(u.email, m.id, r.scheduledTime)] else [])
    + (if SmsReachable(u) then [SmsSend(u.phone.value, m.id)] else [])
    + (if p.push then [PushSend(u.id, r.id, m.id)] else [])
  }

  predicate AttemptsAny(u: User)
  {
    u.notificationPreferences.email || SmsReachable(u) || u.notificationPreferences.push
  }

  /**
   * The channels written to `notificationChannels`: the channels the user has
   * switched on, in the order email, SMS, push. SMS is listed whenever it is
   * switched on, even when it was not attempted.
   */
  function RecordedChannels(p: Preferences): (cs: seq<Channel>)
    ensures EmailChannel in cs <==> p.email
    ensures SmsChannel in cs <==> p.sms
    ensures PushChannel in cs <==> p.push
    ensures forall i, j :: 0 <= i < j < |cs| ==> cs[i] != cs[j]
  {
    (if p.email then [EmailChannel] else [])
    + (if p.sms then [SmsChannel] else [])
    + (if p.push then [PushChannel] else [])
  }

  /** The notification bookkeeping written to a reminder after its sends. */
  function Notified(r: Reminder, p: Preferences, now: Time): (n: Reminder)
    ensures n.notificationSent && n.notificationSentAt == Some(now)
    ensures n.notificationChannels == RecordedChannels(p)
    ensures n.(notificationSent := r.notificationSent, notificationSentAt := r.notificationSentAt,
               notificationChannels := r.notificationChannels) == r
  {
    r.(notificationSent := true, notificationSentAt := Some(now), notificationChannels := RecordedChannels(p))
  }

  /** The recorded channels can name SMS although no SMS was attempted. */
  lemma SmsRecordedWithoutAttempt(u: User, m: Medication, r: Reminder)
    requires u.notificationPreferences.sms && !u.isPhoneVerified
    ensures SmsChannel in RecordedChannels(u.notificationPreferences)
    ensures forall i :: 0 <= i < |Attempts(u, m, r)| ==> !Attempts(u, m, r)[i].SmsSend?
  {
  }

  datatype Step = Step(record: Reminder, sends: seq<Send>, completed: bool)

  /**
   * One iteration of the dispatch loop. A reminder whose user is gone throws
   * on reading the preferences; one whose medication is gone throws at the
   * first attempted send (which reads the medication's fields) or, when
   * nothing is attempted, at the log line after the bookkeeping was saved.
   */
  function NotifyOne(r: Reminder, users: seq<User>, meds: seq<Medication>, now: Time): Step
  {
    match FindUser(users, r.user)
    case None => Step(r, [], false)
    case Some(u) =>
      match FindMedication(meds, r.medication)
      case None =>
        if AttemptsAny(u) then Step(r, [], false)
        else Step(Notified(r, u.notificationPreferences, now), [], false)
      case Some(m) => Step(Notified(r, u.notificationPreferences, now), Attempts(u, m, r), true)
  }

  /**
   * One selected reminder: it is notified when its user exists (unless the
   * medication is missing after an attempt was made); the step completes iff
   * both user and medication exist, and then the attempts are exactly the
   * user's reachable channels.
   */
  lemma NotifyOneEffect(r: Reminder, users: seq<User>, meds: seq<Medication>, now: Time)
    ensures var st := NotifyOne(r, users, meds, now);
      && (st.record == r || (FindUser(users, r.user).Some? &&
                             st.record == Notified(r, FindUser(users, r.user).value.notificationPreferences, now)))
      && (st.completed <==> FindUser(users, r.user).Some? && FindMedication(meds, r.medication).Some?)
      && (st.completed ==>
            st.record == Notified(r, FindUser(users, r.user).value.notificationPreferences, now)
            && st.sends == Attempts(FindUser(users, r.user).value, FindMedication(meds, r.medication).value, r))
      && (!st.completed ==> st.sends == [])
  {
  }

  datatype Dispatch = Dispatch(records: seq<Reminder>, sends: seq<Send>, completed: bool)

  /** The owner's preferences of a record, when the owner exists. */
  function PrefsOf(users: seq<User>, r: Reminder): Option<Preferences>
  {
    match FindUser(users, r.user)
    case None => None
    case Some(u) => Some(u.notificationPreferences)
  }

  /** The only change the dispatcher makes to a record: it notifies a due one. */
  predicate MayNotify(r: Reminder, r': Reminder, users: seq<User>, now: Time)
  {
    r' == r || (IsDue(r, now) && PrefsOf(users, r).Some? && r' == Notified(r, PrefsOf(users, r).value, now))
  }

  /** A due record has been notified, and its user and medication exist. */
  predicate Handled(r: Reminder, r': Reminder, users: seq<User>, meds: seq<Medication>, now: Time)
  {
    IsDue(r, now) ==>
      PrefsOf(users, r).Some? && FindMedication(meds, r.medication).Some?
      && r' == Notified(r, PrefsOf(users, r).value, now)
  }

  /** The dispatcher after the loop has looked at the first `n` reminders. */
  function DispatchUpTo(rs: seq<Reminder>, n: nat, users: seq<User>, meds: seq<Medication>, now: Time): (d: Dispatch)
    requires n <= |rs|
    ensures |d.records| == |rs|
    decreases n
  {
    if n == 0 then Dispatch(rs, [], true)
    else
      var prev := DispatchUpTo(rs, n - 1, users, meds, now);
      if !prev.completed || !IsDue(rs[n - 1], now) then prev
      else
        var st := NotifyOne(rs[n - 1], users, meds, now);
        Dispatch(prev.records[n - 1 := st.record], prev.sends + st.sends, st.completed)
  }

  /** The records from position `n` on are untouched. */
  lemma {:induction false} DispatchUntouched(rs: seq<Reminder>, n: nat, users: seq<User>, meds: seq<Medication>, now: Time)
    requires n <= |rs|
    ensures var d := DispatchUpTo(rs, n, users, meds, now);
      forall j :: n <= j < |rs| ==> d.records[j] == rs[j]
  {
    if n > 0 {
      DispatchUntouched(rs, n - 1, users, meds, now);
    }
  }

  /** Every record is left as it was or notified, and only when it was due. */
  lemma {:induction false} DispatchOnlyNotifies(rs: seq<Reminder>, n: nat, users: seq<User>, meds: seq<Medication>, now: Time)
    requires n <= |rs|
    ensures var d := DispatchUpTo(rs, n, users, meds, now);
      forall j :: 0 <= j < |rs| ==> MayNotify(rs[j], d.records[j], users, now)
  {
    forall j | 0 <= j < |rs| ensures MayNotify(rs[j], DispatchUpTo(rs, n, users, meds, now).records[j], users, now) {
      OnlyNotifiesAt(rs, n, j, users, meds, now);
    }
  }

  lemma {:induction false} OnlyNotifiesAt(rs: seq<Reminder>, n: nat, j: nat, users: seq<User>, meds: seq<Medication>, now: Time)
    requires n <= |rs| && j < |rs|
    ensures MayNotify(rs[j], DispatchUpTo(rs, n, users, meds, now).records[j], users, now)
  {
    if n > 0 {
      OnlyNotifiesAt(rs, n - 1, j, users, meds, now);
      if j == n - 1 {
        DispatchUntouched(rs, n - 1, users, meds, now);
      }
    }
  }

  function DispatchAll(rs: seq<Reminder>, users: seq<User>, meds: seq<Medication>, now: Time): Dispatch
  {
    DispatchUpTo(rs, |rs|, users, meds, now)
  }

  /** A record the dispatcher wrote is never due again, whatever the time. */
  lemma NotifiedNeverDue(r: Reminder, p: Preferences, now: Time, later: Time)
    ensures !IsDue(Notified(r, p, now), later)
  {
  }

  /** Once a run has stopped on an exception, later reminders are left alone. */
  lemma AbortStays(rs: seq<Reminder>, k: nat, n: nat, users: seq<User>, meds: seq<Medication>, now: Time)
    requires k <= n <= |rs|
    requires !DispatchUpTo(rs, k, users, meds, now).completed
    ensures DispatchUpTo(rs, n, users, meds, now) == DispatchUpTo(rs, k, users, meds, now)
  {
    var m := k;
    while m < n
      invariant k <= m <= n
      invariant DispatchUpTo(rs, m, users, meds, now) == DispatchUpTo(rs, k, users, meds, now)
    {
      AbortStep(rs, m, users, meds, now);
      m := m + 1;
    }
  }

  lemma AbortStep(rs: seq<Reminder>, k: nat, users: seq<User>, meds: seq<Medication>, now: Time)
    requires k < |rs| && !DispatchUpTo(rs, k, users, meds, now).completed
    ensures DispatchUpTo(rs, k + 1, users, meds, now) == DispatchUpTo(rs, k, users, meds, now)
  {
  }

  /**
   * A run that completes leaves every selected reminder notified with the
   * user's recorded channels and sent at `now`, and leaves nothing due.
   */
  lemma {:induction false} CompletedRunNotifiesAllDue(rs: seq<Reminder>, n: nat, users: seq<User>, meds: seq<Medication>, now: Time)
    requires n <= |rs|
    ensures var d := DispatchUpTo(rs, n, users, meds, now);
      d.completed ==> forall j :: 0 <= j < n ==> Handled(rs[j], d.records[j], users, meds, now)
    ensures var d := DispatchUpTo(rs, n, users, meds, now);
      d.completed ==> forall j :: 0 <= j < n ==> !IsDue(d.records[j], now)
  {
    forall j | 0 <= j < n
      ensures var d := DispatchUpTo(rs, n, users, meds, now);
        d.completed ==> Handled(rs[j], d.records[j], users, meds, now) && !IsDue(d.records[j], now)
    {
      HandledAt(rs, n, j, users, meds, now);
    }
  }

  lemma {:induction false} HandledAt(rs: seq<Reminder>, n: nat, j: nat, users: seq<User>, meds: seq<Medication>, now: Time)
    requires j < n <= |rs|
    ensures var d := DispatchUpTo(rs, n, users, meds, now);
      d.completed ==> Handled(rs[j], d.records[j], users, meds, now) && !IsDue(d.records[j], now)
  {
    if j < n - 1 {
      HandledAt(rs, n - 1, j, users, meds, now);
      StepKeepsEarlier(rs, n, j, users, meds, now);
    } else {
      HandledLast(rs, n, users, meds, now);
    }
  }

  /** A step that completes only touches its own record, after a run that had completed. */
  lemma StepKeepsEarlier(rs: seq<Reminder>, n: nat, j: nat, users: seq<User>, meds: seq<Medication>, now: Time)
    requires j < n - 1 && n <= |rs|
    ensures var d := DispatchUpTo(rs, n, users, meds, now);
      var prev := DispatchUpTo(rs, n - 1, users, meds, now);
      d.completed ==> prev.completed && d.records[j] == prev.records[j]
  {
  }

  lemma HandledLast(rs: seq<Reminder>, n: nat, users: seq<User>, meds: seq<Medication>, now: Time)
    requires 0 < n <= |rs|
    ensures var d := DispatchUpTo(rs, n, users, meds, now);
      d.completed ==> Handled(rs[n - 1], d.records[n - 1], users, meds, now) && !IsDue(d.records[n - 1], now)
  {
    DispatchUntouched(rs, n - 1, users, meds, now);
  }

  /** A run over a collection in which nothing is due sends nothing and writes nothing. */
  lemma {:induction false} IdleWhenNothingDue(rs: seq<Reminder>, n: nat, users: seq<User>, meds: seq<Medication>, now: Time)
    requires n <= |rs|
    requires forall j :: 0 <= j < |rs| ==> !IsDue(rs[j], now)
    ensures DispatchUpTo(rs, n, users, meds, now) == Dispatch(rs, [], true)
  {
    if n > 0 {
      IdleWhenNothingDue(rs, n - 1, users, meds, now);
    }
  }

  /** Attempt once: a second run at the same time after a completed run does nothing. */
  lemma AttemptOnce(rs: seq<Reminder>, users: seq<User>, meds: seq<Medication>, now: Time)
    ensures var d := DispatchAll(rs, users, meds, now);
      d.completed ==> DispatchAll(d.records, users, meds, now) == Dispatch(d.records, [], true)
  {
    var d := DispatchAll(rs, users, meds, now);
    CompletedRunNotifiesAllDue(rs, |rs|, users, meds, now);
    if d.completed {
      IdleWhenNothingDue(d.records, |d.records|, users, meds, now);
    }
  }

  /** A run stops early only at a due reminder whose user or medication is missing. */
  lemma {:induction false} AbortHasCause(rs: seq<Reminder>, n: nat, users: seq<User>, meds: seq<Medication>, now: Time)
    requires n <= |rs|
    ensures !DispatchUpTo(rs, n, users, meds, now).completed ==>
      exists j :: 0 <= j < n && IsDue(rs[j], now)
        && (FindUser(users, rs[j].user).None? || FindMedication(meds, rs[j].medication).None?)
  {
    if n > 0 {
      AbortHasCause(rs, n - 1, users, meds, now);
    }
  }

  /** The dispatch window is closed at both ends. */
  lemma DueWindowBounds(r: Reminder, now: Time)
    requires r.status == Pending && !r.notificationSent
    ensures r.scheduledTime == now ==> IsDue(r, now)
    ensures r.scheduledTime == now + 5 * MINUTE ==> IsDue(r, now)
    ensures r.scheduledTime == now - 1 || r.scheduledTime == now + 5 * MINUTE + 1 ==> !IsDue(r, now)
  {
  }

  /** A snoozed reminder is selected again once its new time enters the window. */
  lemma SnoozeRearms(r: Reminder, now: Time, minutes: int, tick: Time)
    ensures var s := SnoozedRecord(r, now, minutes);
      IsDue(s, tick) <==> tick <= now + minutes * MINUTE <= tick + DispatchWindow
  {
  }

  /** The three guarded sends of the dispatch loop. */
  method SendNotifications(user: User, medication: Medication, doc: ReminderDoc) returns (sends: seq<Send>)
    ensures sends == Attempts(user, medication, doc.View())
  {
    var prefs := user.notificationPreferences;
    sends := [];
    if prefs.email {
      sends := sends + [EmailSend(user.email, medication.id, doc.scheduledTime)];
    }
    if prefs.sms && user.phone.Some? && user.phone.value != "" && user.isPhoneVerified {
      sends := sends + [SmsSend(user.phone.value, medication.id)];
    }
    if prefs.push {
      sends := sends + [PushSend(user.id, doc.id, medication.id)];
    }
  }

  /** The notification bookkeeping the dispatch loop saves. */
  method RecordNotification(doc: ReminderDoc, prefs: Preferences, now: Time)
    modifies doc
    ensures doc.View() == Notified(old(doc.View()), prefs, now)
  {
    doc.notificationSent := true;
    doc.notificationSentAt := Some(now);
    var channels := [];
    if prefs.email { channels := channels + [EmailChannel]; }
    if prefs.sms { channels := channels + [SmsChannel]; }
    if prefs.push { channels := channels + [PushChannel]; }
    doc.notificationChannels := channels;
  }

  /** The body of the dispatch loop for one selected document. */
  method NotifyDoc(doc: ReminderDoc, users: seq<User>, meds: seq<Medication>, now: Time)
    returns (sends: seq<Send>, completed: bool)
    modifies doc
    ensures var st := NotifyOne(old(doc.View()), users, meds, now);
      doc.View() == st.record && sends == st.sends && completed == st.completed
  {
    sends := [];
    match FindUser(users, doc.user)
    case None =>
      completed := false;
    case Some(user) =>
      var medication := FindMedication(meds, doc.medication);
      if medication.None? && AttemptsAny(user) {
        completed := false;
      } else {
        if medication.Some? {
          sends := SendNotifications(user, medication.value, doc);
        }
        RecordNotification(doc, user.notificationPreferences, now);
        completed := medication.Some?;
      }
  }

  /** One iteration of the dispatch loop: the `i`-th document, notified when it is due. */
  method DispatchDoc(store: ReminderCollection, i: nat, users: seq<User>, meds: seq<Medication>, now: Time)
    returns (sends: seq<Send>, completed: bool)
    requires store.Valid() && i < |store.docs|
    modifies store.docs[i]
    ensures store.Valid()
    ensures var r := old(store.Records())[i];
      var st := NotifyOne(r, users, meds, now);
      if IsDue(r, now) then
        store.Records() == old(store.Records())[i := st.record] && sends == st.sends && completed == st.completed
      else
        store.Records() == old(store.Records()) && sends == [] && completed
  {
    var doc := store.docs[i];
    sends, completed := [], true;
    if doc.status == Pending && !doc.notificationSent && now <= doc.scheduledTime <= now + DispatchWindow {
      sends, completed := NotifyDoc(doc, users, meds, now);
    }
  }

  /** One more step of the dispatcher, while it has not stopped. */
  lemma DispatchNext(rs: seq<Reminder>, i: nat, users: seq<User>, meds: seq<Medication>, now: Time)
    requires i < |rs| && DispatchUpTo(rs, i, users, meds, now).completed
    ensures var d := DispatchUpTo(rs, i, users, meds, now);
      var st := NotifyOne(d.records[i], users, meds, now);
      DispatchUpTo(rs, i + 1, users, meds, now) ==
        if IsDue(d.records[i], now) then Dispatch(d.records[i := st.record], d.sends + st.sends, st.completed) else d
  {
    DispatchUntouched(rs, i, users, meds, now);
  }

  /** The dispatch loop's state after it has looked at the first `i` documents. */
  ghost predicate DispatchedUpTo(store: ReminderCollection, rs: seq<Reminder>, i: nat, users: seq<User>, meds: seq<Medication>,
                                 now: Time, sends: seq<Send>, completed: bool)
    reads store, store.docs
  {
    && store.Valid() && i <= |rs| == |store.docs|
    && var d := DispatchUpTo(rs, i, users, meds, now);
      store.Records() == d.records && sends == d.sends && completed == d.completed
  }

  /** The loop's step from `i` to `i + 1` on a run that has not stopped. */
  method DispatchFrom(store: ReminderCollection, ghost rs: seq<Reminder>, i: nat, users: seq<User>, meds: seq<Medication>,
                      now: Time, sends: seq<Send>)
    returns (sends': seq<Send>, completed: bool)
    requires DispatchedUpTo(store, rs, i, users, meds, now, sends, true) && i < |store.docs|
    modifies store.docs
    ensures DispatchedUpTo(store, rs, i + 1, users, meds, now, sends', completed)
  {
    var more;
    more, completed := DispatchDoc(store, i, users, meds, now);
    DispatchNext(rs, i, users, meds, now);
    sends' := sends + more;
  }

  method CheckAndSendReminders(store: ReminderCollection, users: seq<User>, meds: seq<Medication>, now: Time)
    returns (sends: seq<Send>, completed: bool)
    requires store.Valid()
    modifies store.docs
    ensures store.Valid()
    ensures var d := DispatchAll(old(store.Records()), users, meds, now);
      store.Records() == d.records && sends == d.sends && completed == d.completed
  {
    ghost var rs := store.Records();
    sends, completed := [], true;
    var i := 0;
    while i < |store.docs| && completed
      invariant DispatchedUpTo(store, rs, i, users, meds, now, sends, completed)
    {
      sends, completed := DispatchFrom(store, rs, i, users, meds, now, sends);
      i := i + 1;
    }
    DispatchFinished(store, rs, i, users, meds, now, sends, completed);
  }

  /** When the loop ends, early or not, its state is that of the whole run. */
  lemma DispatchFinished(store: ReminderCollection, rs: seq<Reminder>, i: nat, users: seq<User>, meds: seq<Medication>,
                         now: Time, sends: seq<Send>, completed: bool)
    requires DispatchedUpTo(store, rs, i, users, meds, now, sends, completed)
    requires i == |rs| || !completed
    ensures store.Valid()
    ensures var d := DispatchAll(rs, users, meds, now);
      store.Records() == d.records && sends == d.sends && completed == d.completed
  {
    if !completed {
      AbortStays(rs, i, |rs|, users, meds, now);
    }
  }

  // ===========================================================================
  // Missed-reminder sweeper

  /** The sweeper's query: pending and scheduled strictly before `now - 30 min`. */
  predicate Overdue(r: Reminder, now: Time)
  {
    r.status == Pending && r.scheduledTime < now - GracePeriod
  }

  function MissedSweep(rs: seq<Reminder>, now: Time): (out: seq<Reminder>)
    ensures |out| == |rs|
  {
    seq(|rs|, j requires 0 <= j < |rs| => if Overdue(rs[j], now) then MissedRecord(rs[j], now) else rs[j])
  }

  /**
   * Exactly the overdue reminders become missed (stamped `now`); every other
   * reminder, including one exactly thirty minutes old, is left as it was.
   */
  lemma MissedSweepEffect(rs: seq<Reminder>, now: Time, j: nat)
    requires j < |rs|
    ensures var out := MissedSweep(rs, now);
      && (Overdue(rs[j], now) ==> out[j].status == Missed && out[j].missedAt == Some(now)
                                  && out[j].(status := Pending, missedAt := rs[j].missedAt) == rs[j])
      && (!Overdue(rs[j], now) ==> out[j] == rs[j])
      && (rs[j].scheduledTime == now - 30 * MINUTE ==> out[j] == rs[j])
  {
  }

  /** A second sweep at the same time finds nothing to do. */
  lemma MissedSweepIdempotent(rs: seq<Reminder>, now: Time)
    ensures MissedSweep(MissedSweep(rs, now), now) == MissedSweep(rs, now)
  {
  }

  method CheckMissedReminders(store: ReminderCollection, now: Time)
    requires store.Valid()
    modifies store.docs
    ensures store.Valid()
    ensures store.Records() == MissedSweep(old(store.Records()), now)
  {
    ghost var rs := store.Records();
    var thirtyMinutesAgo := now - 30 * MINUTE;
    for i := 0 to |store.docs|
      invariant store.Valid()
      invariant forall j :: 0 <= j < i ==> store.docs[j].View() == MissedSweep(rs, now)[j]
      invariant forall j :: i <= j < |store.docs| ==> store.docs[j].View() == rs[j]
    {
      var doc := store.docs[i];
      if doc.scheduledTime < thirtyMinutesAgo && doc.status == Pending {
        doc.MarkAsMissed(now);
      }
    }
  }

  // ===========================================================================
  // Daily instance generator

  /** `Reminder.findOne({ user, medication, scheduledTime })` finds something. */
  predicate HasKey(rs: seq<Reminder>, k: SlotKey)
  {
    exists j | 0 <= j < |rs| :: Key(rs[j]) == k
  }

  ghost predicate KeysWithin(a: seq<Reminder>, b: seq<Reminder>)
  {
    forall k :: HasKey(a, k) ==> HasKey(b, k)
  }

  ghost predicate Extends(b: seq<Reminder>, a: seq<Reminder>)
  {
    |a| <= |b| && b[..|a|] == a
  }

  lemma ExtendsKeys(a: seq<Reminder>, b: seq<Reminder>)
    requires Extends(b, a)
    ensures KeysWithin(a, b)
  {
    forall k | HasKey(a, k) ensures HasKey(b, k) {
      var j :| 0 <= j < |a| && Key(a[j]) == k;
      assert b[j] == a[j];
    }
  }

  datatype Gen = Gen(records: seq<Reminder>, completed: bool)

  /**
   * One schedule entry of one medication. An entry for another weekday is
   * skipped. A time that does not parse, or whose slot lies beyond the range
   * of a JavaScript date, yields an invalid date, which the lookup query
   * rejects: the sweep ends there. Otherwise a reminder is created unless one
   * with the same key exists or the slot is not in the future.
   */
  function GenEntry(g: Gen, med: Medication, e: ScheduleEntry, now: Time): (g': Gen)
    ensures Extends(g'.records, g.records)
    ensures |g'.records| <= |g.records| + 1
  {
    if !g.completed || WeekdayOf(now) !in e.days then g
    else match ParseClock(e.time)
      case None => Gen(g.records, false)
      case Some((h, m)) =>
        var t := SlotTime(now, h, m);
        if !ValidTimeValue(t) then Gen(g.records, false)
        else if !HasKey(g.records, SlotKey(med.user, med.id, t)) && t > now then
          Gen(g.records + [NewReminder(|g.records|, med.user, med.id, t)], true)
        else g
  }

  /** The inner loop over `medication.schedule`, after the entries `es`. */
  function GenEntries(g: Gen, med: Medication, es: seq<ScheduleEntry>, now: Time): (g': Gen)
    ensures Extends(g'.records, g.records)
    ensures !g.completed ==> g' == g
    decreases |es|
  {
    if es == [] then g
    else GenEntry(GenEntries(g, med, es[..|es| - 1], now), med, es[|es| - 1], now)
  }

  /** The outer loop over the active medications, after the medications `ms`. */
  function GenMeds(g: Gen, ms: seq<Medication>, now: Time): (g': Gen)
    ensures Extends(g'.records, g.records)
    ensures !g.completed ==> g' == g
    decreases |ms|
  {
    if ms == [] then g
    else
      var prev := GenMeds(g, ms[..|ms| - 1], now);
      var med := ms[|ms| - 1];
      if med.isActive then GenEntries(prev, med, med.schedule, now) else prev
  }

  function Generate(rs: seq<Reminder>, meds: seq<Medication>, now: Time): Gen
  {
    GenMeds(Gen(rs, true), meds, now)
  }

  lemma {:induction false} EntriesAbortStays(g: Gen, med: Medication, es: seq<ScheduleEntry>, k: nat, now: Time)
    requires k <= |es|
    requires !GenEntries(g, med, es[..k], now).completed
    ensures GenEntries(g, med, es, now) == GenEntries(g, med, es[..k], now)
    decreases |es| - k
  {
    if k < |es| {
      var es' := es[..|es| - 1];
      assert es'[..k] == es[..k];
      EntriesAbortStays(g, med, es', k, now);
    } else {
      assert es[..k] == es;
    }
  }

  lemma {:induction false} MedsAbortStays(g: Gen, ms: seq<Medication>, k: nat, now: Time)
    requires k <= |ms|
    requires !GenMeds(g, ms[..k], now).completed
    ensures GenMeds(g, ms, now) == GenMeds(g, ms[..k], now)
    decreases |ms| - k
  {
    if k < |ms| {
      var ms' := ms[..|ms| - 1];
      assert ms'[..k] == ms[..k];
      MedsAbortStays(g, ms', k, now);
    } else {
      assert ms[..k] == ms;
    }
  }

  // ---- Idempotence: running the generator again on its own output adds nothing

  lemma {:induction false} EntriesRerun(x: Gen, y: seq<Reminder>, med: Medication, es: seq<ScheduleEntry>, now: Time)
    requires KeysWithin(GenEntries(x, med, es, now).records, y)
    ensures GenEntries(Gen(y, x.completed), med, es, now) == Gen(y, GenEntries(x, med, es, now).completed)
    decreases |es|
  {
    if es != [] {
      var es' := es[..|es| - 1];
      var e := es[|es| - 1];
      var xp := GenEntries(x, med, es', now);
      var xf := GenEntry(xp, med, e, now);
      ExtendsKeys(xp.records, xf.records);
      EntriesRerun(x, y, med, es', now);
      EntryRerun(xp, y, med, e, now);
    }
  }

  /** One entry rerun over records holding every key the first run left. */
  lemma EntryRerun(x: Gen, y: seq<Reminder>, med: Medication, e: ScheduleEntry, now: Time)
    requires KeysWithin(GenEntry(x, med, e, now).records, y)
    ensures GenEntry(Gen(y, x.completed), med, e, now) == Gen(y, GenEntry(x, med, e, now).completed)
  {
    var xf := GenEntry(x, med, e, now);
    if x.completed && WeekdayOf(now) in e.days && SlotReadable(e, now) {
      var (h, m) := ParseClock(e.time).value;
      var k := SlotKey(med.user, med.id, SlotTime(now, h, m));
      if SlotTime(now, h, m) > now {
        if !HasKey(x.records, k) {
          assert Key(xf.records[|x.records|]) == k;
        }
        assert HasKey(xf.records, k);
      }
    }
  }

  lemma {:induction false} MedsRerun(x: Gen, y: seq<Reminder>, ms: seq<Medication>, now: Time)
    requires KeysWithin(GenMeds(x, ms, now).records, y)
    ensures GenMeds(Gen(y, x.completed), ms, now) == Gen(y, GenMeds(x, ms, now).completed)
    decreases |ms|
  {
    if ms != [] {
      var ms' := ms[..|ms| - 1];
      var med := ms[|ms| - 1];
      var xp := GenMeds(x, ms', now);
      var xf := GenMeds(x, ms, now);
      ExtendsKeys(xp.records, xf.records);
      MedsRerun(x, y, ms', now);
      if med.isActive {
        EntriesRerun(xp, y, med, med.schedule, now);
      }
    }
  }

  /**
   * Idempotent generation: a second run on the same day, over the records the
   * first run left, creates nothing and ends the same way.
   */
  lemma GenerateIdempotent(rs: seq<Reminder>, meds: seq<Medication>, now: Time)
    ensures var g := Generate(rs, meds, now);
      Generate(g.records, meds, now) == g
  {
    var g := Generate(rs, meds, now);
    MedsRerun(Gen(rs, true), g.records, meds, now);
  }

  // ---- The generator never introduces a duplicate key

  /** Every record from position `n` on has a key no other record has. */
  ghost predicate FreshKeysFrom(rs: seq<Reminder>, n: nat)
  {
    forall j, k :: n <= j < |rs| && 0 <= k < |rs| && k != j ==> Key(rs[k]) != Key(rs[j])
  }

  lemma {:induction false} EntriesFreshKeys(g: Gen, med: Medication, es: seq<ScheduleEntry>, n: nat, now: Time)
    requires n <= |g.records| && FreshKeysFrom(g.records, n)
    ensures FreshKeysFrom(GenEntries(g, med, es, now).records, n)
    decreases |es|
  {
    if es != [] {
      var gp := GenEntries(g, med, es[..|es| - 1], now);
      EntriesFreshKeys(g, med, es[..|es| - 1], n, now);
      var gf := GenEntries(g, med, es, now);
      if |gf.records| > |gp.records| {
        var x := gf.records[|gp.records|];
        assert !HasKey(gp.records, Key(x));
        assert gf.records == gp.records + [x];
      }
    }
  }

  lemma {:induction false} MedsFreshKeys(g: Gen, ms: seq<Medication>, n: nat, now: Time)
    requires n <= |g.records| && FreshKeysFrom(g.records, n)
    ensures FreshKeysFrom(GenMeds(g, ms, now).records, n)
    decreases |ms|
  {
    if ms != [] {
      var gp := GenMeds(g, ms[..|ms| - 1], now);
      MedsFreshKeys(g, ms[..|ms| - 1], n, now);
      var med := ms[|ms| - 1];
      if med.isActive {
        EntriesFreshKeys(gp, med, med.schedule, n, now);
      }
    }
  }

  /** No reminder the generator creates shares its key with any other reminder. */
  lemma GenerateNoDuplicateKeys(rs: seq<Reminder>, meds: seq<Medication>, now: Time)
    ensures FreshKeysFrom(Generate(rs, meds, now).records, |rs|)
  {
    MedsFreshKeys(Gen(rs, true), meds, |rs|, now);
  }

  // ---- What each created reminder is

  /** `r` is the reminder created for entry `e` of medication `med` on the day of `now`. */
  ghost predicate FromEntry(r: Reminder, med: Medication, e: ScheduleEntry, now: Time)
  {
    && WeekdayOf(now) in e.days
    && SlotReadable(e, now)
    && r == NewReminder(r.id, med.user, med.id, SlotTime(now, ParseClock(e.time).value.0, ParseClock(e.time).value.1))
    && r.scheduledTime > now
  }

  /** `r` comes from some schedule entry of the active medication `med`. */
  ghost predicate FromMedication(r: Reminder, med: Medication, now: Time)
  {
    med.isActive && exists e :: e in med.schedule && FromEntry(r, med, e, now)
  }

  lemma {:induction false} EntriesCreate(g: Gen, med: Medication, es: seq<ScheduleEntry>, now: Time, j: nat)
    requires |g.records| <= j < |GenEntries(g, med, es, now).records|
    ensures GenEntries(g, med, es, now).records[j].id == j
    ensures ValidTimeValue(GenEntries(g, med, es, now).records[j].scheduledTime)
    ensures exists e :: e in es && FromEntry(GenEntries(g, med, es, now).records[j], med, e, now)
    decreases |es|
  {
    var es' := es[..|es| - 1];
    var e := es[|es| - 1];
    var gp := GenEntries(g, med, es', now);
    var gf := GenEntries(g, med, es, now);
    if j < |gp.records| {
      EntriesCreate(g, med, es', now, j);
      assert gf.records[j] == gp.records[j];
      var e0 :| e0 in es' && FromEntry(gp.records[j], med, e0, now);
      assert e0 in es;
    } else {
      assert FromEntry(gf.records[j], med, e, now);
      assert e in es;
    }
  }

  lemma {:induction false} MedsCreate(g: Gen, ms: seq<Medication>, now: Time, j: nat)
    requires |g.records| <= j < |GenMeds(g, ms, now).records|
    ensures GenMeds(g, ms, now).records[j].id == j
    ensures ValidTimeValue(GenMeds(g, ms, now).records[j].scheduledTime)
    ensures exists med :: med in ms && FromMedication(GenMeds(g, ms, now).records[j], med, now)
    decreases |ms|
  {
    var ms' := ms[..|ms| - 1];
    var med := ms[|ms| - 1];
    var gp := GenMeds(g, ms', now);
    var gf := GenMeds(g, ms, now);
    if j < |gp.records| {
      MedsCreate(g, ms', now, j);
      assert gf.records[j] == gp.records[j];
      var m0 :| m0 in ms' && FromMedication(gp.records[j], m0, now);
      assert m0 in ms;
    } else {
      EntriesCreate(gp, med, med.schedule, now, j);
      assert med in ms;
    }
  }

  /**
   * The generator only appends: each new reminder is pending, un-notified,
   * strictly in the future at a valid date, at its own position, and comes from today's entry
   * of an active medication.
   */
  lemma GenerateCreates(rs: seq<Reminder>, meds: seq<Medication>, now: Time)
    ensures var g := Generate(rs, meds, now);
      && Extends(g.records, rs)
      && forall j :: |rs| <= j < |g.records| ==>
        && g.records[j].id == j
        && g.records[j].status == Pending && !g.records[j].notificationSent
        && g.records[j].scheduledTime > now && ValidTimeValue(g.records[j].scheduledTime)
        && exists med :: med in meds && FromMedication(g.records[j], med, now)
  {
    var g := Generate(rs, meds, now);
    forall j | |rs| <= j < |g.records|
      ensures g.records[j].id == j
      ensures ValidTimeValue(g.records[j].scheduledTime)
      ensures exists med :: med in meds && FromMedication(g.records[j], med, now)
    {
      MedsCreate(Gen(rs, true), meds, now, j);
    }
  }

  /**
   * No retroactive reminders: an entry whose slot is not after `now` creates
   * nothing, and leaves the sweep running when the slot is a valid date.
   */
  lemma PastSlotCreatesNothing(g: Gen, med: Medication, e: ScheduleEntry, now: Time)
    requires ParseClock(e.time).Some?
    requires SlotTime(now, ParseClock(e.time).value.0, ParseClock(e.time).value.1) <= now
    ensures GenEntry(g, med, e, now).records == g.records
    ensures SlotReadable(e, now) ==> GenEntry(g, med, e, now) == g
  {
  }

  /**
   * A readable clock time whose slot leaves the range of a JavaScript date
   * ends the sweep: on one of the last days that range allows, any time from
   * hour 96 on (such as "99:00") lands beyond it, and `setHours` yields an
   * invalid date.
   */
  lemma OutOfRangeSlotAborts(g: Gen, med: Medication, e: ScheduleEntry, now: Time, h: int, m: int)
    requires g.completed && WeekdayOf(now) in e.days
    requires MaxTimeValue - 3 * DAY <= now <= MaxTimeValue
    requires ParseClock(e.time) == Some((h, m)) && h >= 96 && m >= 0
    ensures ValidTimeValue(now)
    ensures !SlotReadable(e, now)
    ensures GenEntry(g, med, e, now) == Gen(g.records, false)
  {
    LateSlotOutOfRange(now, h, m);
    InvalidSlotAborts(g, med, e, now);
  }

  lemma InvalidSlotAborts(g: Gen, med: Medication, e: ScheduleEntry, now: Time)
    requires g.completed && WeekdayOf(now) in e.days && !SlotReadable(e, now)
    ensures GenEntry(g, med, e, now) == Gen(g.records, false)
  {
  }

  lemma LateSlotOutOfRange(now: Time, h: int, m: int)
    requires MaxTimeValue - 3 * DAY <= now && h >= 96 && m >= 0
    ensures !ValidTimeValue(SlotTime(now, h, m))
  {
    assert Midnight(now) > now - DAY;
  }

  // ---- When the generator stops early

  /** The entry's time can be read, and today's slot at that time is a valid date. */
  predicate SlotReadable(e: ScheduleEntry, now: Time)
  {
    ParseClock(e.time).Some? && ValidTimeValue(SlotTime(now, ParseClock(e.time).value.0, ParseClock(e.time).value.1))
  }

  /** Every entry for today's weekday among `es` has a readable time with a valid slot. */
  ghost predicate EntriesReadable(es: seq<ScheduleEntry>, now: Time)
  {
    forall k :: 0 <= k < |es| && WeekdayOf(now) in es[k].days ==> SlotReadable(es[k], now)
  }

  ghost predicate TimesReadable(ms: seq<Medication>, now: Time)
  {
    forall i :: 0 <= i < |ms| && ms[i].isActive ==> EntriesReadable(ms[i].schedule, now)
  }

  lemma {:induction false} EntriesComplete(g: Gen, med: Medication, es: seq<ScheduleEntry>, now: Time)
    requires g.completed
    ensures GenEntries(g, med, es, now).completed <==> EntriesReadable(es, now)
    decreases |es|
  {
    if es != [] {
      var es' := es[..|es| - 1];
      EntriesComplete(g, med, es', now);
      assert forall k :: 0 <= k < |es'| ==> es'[k] == es[k];
      var gp := GenEntries(g, med, es', now);
      if gp.completed {
        EntryComplete(gp, med, es[|es| - 1], now);
      }
    }
  }

  /** One entry keeps the sweep running iff it is for another day or its slot is readable. */
  lemma EntryComplete(g: Gen, med: Medication, e: ScheduleEntry, now: Time)
    requires g.completed
    ensures GenEntry(g, med, e, now).completed <==> (WeekdayOf(now) in e.days ==> SlotReadable(e, now))
  {
  }

  lemma {:induction false} MedsComplete(g: Gen, ms: seq<Medication>, now: Time)
    requires g.completed
    ensures GenMeds(g, ms, now).completed <==> TimesReadable(ms, now)
    decreases |ms|
  {
    if ms != [] {
      var ms' := ms[..|ms| - 1];
      var med := ms[|ms| - 1];
      MedsComplete(g, ms', now);
      TimesReadableLast(ms, now);
      var gp := GenMeds(g, ms', now);
      if med.isActive && gp.completed {
        EntriesComplete(gp, med, med.schedule, now);
      }
    }
  }

  lemma TimesReadableLast(ms: seq<Medication>, now: Time)
    requires ms != []
    ensures TimesReadable(ms, now) <==>
      TimesReadable(ms[..|ms| - 1], now) && (ms[|ms| - 1].isActive ==> EntriesReadable(ms[|ms| - 1].schedule, now))
  {
    var ms' := ms[..|ms| - 1];
    assert forall i :: 0 <= i < |ms'| ==> ms'[i] == ms[i];
  }

  /**
   * The generator completes exactly when every schedule time it reaches can be
   * read and gives a valid date today.
   */
  lemma GenerateCompletes(rs: seq<Reminder>, meds: seq<Medication>, now: Time)
    ensures Generate(rs, meds, now).completed <==> TimesReadable(meds, now)
  {
    MedsComplete(Gen(rs, true), meds, now);
  }

  /** One schedule entry: look the slot up and create it when it is new and in the future. */
  method GenerateForEntry(store: ReminderCollection, medication: Medication, schedule: ScheduleEntry, now: Time, ghost g: Gen)
    returns (completed: bool)
    requires store.Valid() && store.Records() == g.records && g.completed
    modifies store
    ensures store.Valid()
    ensures GenEntry(g, medication, schedule, now) == Gen(store.Records(), completed)
  {
    completed := true;
    if WeekdayOf(now) in schedule.days {
      var clock := ParseClock(schedule.time);
      if clock.None? {
        completed := false;
      } else {
        var reminderTime := SlotTime(now, clock.value.0, clock.value.1);
        if !ValidTimeValue(reminderTime) {
          return false;
        }
        var existing := HasKey(store.Records(), SlotKey(medication.user, medication.id, reminderTime));
        if !existing && reminderTime > now {
          var _ := store.Create(medication.user, medication.id, reminderTime);
        }
      }
    }
  }

  /** The inner loop of the generator: the schedule entries of one active medication. */
  method GenerateForMedication(store: ReminderCollection, medication: Medication, now: Time, ghost g: Gen)
    returns (completed: bool)
    requires store.Valid() && store.Records() == g.records && g.completed
    modifies store
    ensures store.Valid()
    ensures GenEntries(g, medication, medication.schedule, now) == Gen(store.Records(), completed)
  {
    completed := true;
    var ei := 0;
    while ei < |medication.schedule| && completed
      invariant 0 <= ei <= |medication.schedule|
      invariant store.Valid()
      invariant GenEntries(g, medication, medication.schedule[..ei], now) == Gen(store.Records(), completed)
    {
      EntriesNext(g, medication, medication.schedule, ei, now);
      completed := GenerateForEntry(store, medication, medication.schedule[ei], now, Gen(store.Records(), true));
      ei := ei + 1;
    }
    EntriesFinished(g, medication, medication.schedule, ei, now);
  }

  /** The inner loop after `k + 1` entries is one more entry after `k`. */
  lemma EntriesNext(g: Gen, med: Medication, es: seq<ScheduleEntry>, k: nat, now: Time)
    requires k < |es|
    ensures GenEntries(g, med, es[..k + 1], now) == GenEntry(GenEntries(g, med, es[..k], now), med, es[k], now)
  {
    assert es[..k + 1][..k] == es[..k];
  }

  /** When the inner loop ends, early or not, its state is that of all entries. */
  lemma EntriesFinished(g: Gen, med: Medication, es: seq<ScheduleEntry>, k: nat, now: Time)
    requires k <= |es|
    requires k == |es| || !GenEntries(g, med, es[..k], now).completed
    ensures GenEntries(g, med, es, now) == GenEntries(g, med, es[..k], now)
  {
    if k == |es| {
      assert es[..k] == es;
    } else {
      EntriesAbortStays(g, med, es, k, now);
    }
  }

  method GenerateDailyReminders(store: ReminderCollection, meds: seq<Medication>, now: Time)
    returns (completed: bool)
    requires store.Valid()
    modifies store
    ensures store.Valid()
    ensures Generate(old(store.Records()), meds, now) == Gen(store.Records(), completed)
  {
    ghost var rs := store.Records();
    completed := true;
    var mi := 0;
    while mi < |meds| && completed
      invariant 0 <= mi <= |meds|
      invariant store.Valid()
      invariant GenMeds(Gen(rs, true), meds[..mi], now) == Gen(store.Records(), completed)
    {
      var medication := meds[mi];
      assert meds[..mi + 1][..mi] == meds[..mi];
      if medication.isActive {
        completed := GenerateForMedication(store, medication, now, Gen(store.Records(), true));
      }
      mi := mi + 1;
    }
    if !completed {
      MedsAbortStays(Gen(rs, true), meds, mi, now);
    } else {
      assert meds[..mi] == meds;
    }
  }

  // ===========================================================================
  // Refill sweeper

  /** The refill query: active medications with refill tracking switched on. */
  predicate RefillTracked(m: Medication)
  {
    m.isActive && m.refillReminder.enabled
  }

  /**
   * The threshold test `remainingQuantity <= daysBeforeRefill`, with
   * JavaScript's comparison: an unset quantity compares false
   * (`undefined <= n`), a `null` one as 0.
   */
  predicate NeedsRefill(m: Medication)
  {
    LessOrEqual(m.refillReminder.remainingQuantity, m.refillReminder.daysBeforeRefill)
  }

  /**
   * Which stored quantities the threshold test flags: a number at or below a
   * numeric threshold, a `null` quantity whenever the threshold is not
   * negative, and never an unset one.
   */
  lemma NeedsRefillCases(m: Medication)
    ensures m.refillReminder.remainingQuantity.Unset? ==> !NeedsRefill(m)
    ensures m.refillReminder.remainingQuantity.Null? && m.refillReminder.daysBeforeRefill.Num? ==>
      (NeedsRefill(m) <==> 0.0 <= m.refillReminder.daysBeforeRefill.value)
    ensures m.refillReminder.remainingQuantity.Num? && m.refillReminder.daysBeforeRefill.Num? ==>
      (NeedsRefill(m) <==> m.refillReminder.remainingQuantity.value <= m.refillReminder.daysBeforeRefill.value)
    ensures m.refillReminder.daysBeforeRefill.Unset? ==> !NeedsRefill(m)
  {
  }

  /** Both tests of the refill sweep. */
  predicate Flagged(m: Medication)
  {
    RefillTracked(m) && NeedsRefill(m)
  }

  /** What the sweep reports for one medication: the owner's address and the medication's name. */
  datatype RefillAlert = RefillAlert(email: string, medication: string)

  datatype Refill = Refill(alerts: seq<RefillAlert>, completed: bool)

  /**
   * The refill loop after the first `n` medications. Reporting reads the
   * owner's address, so a flagged medication whose owner is gone ends the sweep.
   */
  function RefillUpTo(meds: seq<Medication>, users: seq<User>, n: nat): (r: Refill)
    requires n <= |meds|
    ensures |r.alerts| <= n
    ensures r.completed <==> forall i :: 0 <= i < n && Flagged(meds[i]) ==> FindUser(users, meds[i].user).Some?
    decreases n
  {
    if n == 0 then Refill([], true)
    else
      var prev := RefillUpTo(meds, users, n - 1);
      var m := meds[n - 1];
      if !prev.completed || !Flagged(m) then prev
      else match FindUser(users, m.user)
        case None => Refill(prev.alerts, false)
        case Some(u) => Refill(prev.alerts + [RefillAlert(u.email, m.name)], true)
  }

  /**
   * A completed sweep reports every flagged medication exactly once, in
   * collection order, with its owner's address and its name.
   */
  lemma {:induction false} RefillReportsFlagged(meds: seq<Medication>, users: seq<User>, n: nat)
    requires n <= |meds|
    ensures var r := RefillUpTo(meds, users, n);
      var flagged := Filter(meds[..n], Flagged);
      r.completed ==>
        |r.alerts| == |flagged|
        && forall k :: 0 <= k < |flagged| ==>
             r.alerts[k] == RefillAlert(FindUser(users, flagged[k].user).value.email, flagged[k].name)
  {
    if n > 0 {
      RefillReportsFlagged(meds, users, n - 1);
      assert meds[..n] == meds[..n - 1] + [meds[n - 1]];
      FilterAppend(meds[..n - 1], [meds[n - 1]], Flagged);
      assert Filter([meds[n - 1]], Flagged) == if Flagged(meds[n - 1]) then [meds[n - 1]] else [];
    }
  }

  lemma {:induction false} RefillAbortStays(meds: seq<Medication>, users: seq<User>, k: nat, n: nat)
    requires k <= n <= |meds|
    requires !RefillUpTo(meds, users, k).completed
    ensures RefillUpTo(meds, users, n) == RefillUpTo(meds, users, k)
    decreases n - k
  {
    if k < n {
      RefillAbortStays(meds, users, k, n - 1);
    }
  }

  /** The refill sweep changes no record: it only reports. */
  method CheckRefillReminders(meds: seq<Medication>, users: seq<User>) returns (alerts: seq<RefillAlert>, completed: bool)
    ensures RefillUpTo(meds, users, |meds|) == Refill(alerts, completed)
  {
    alerts, completed := [], true;
    var i := 0;
    while i < |meds| && completed
      invariant 0 <= i <= |meds|
      invariant RefillUpTo(meds, users, i) == Refill(alerts, completed)
    {
      var medication := meds[i];
      if medication.isActive && medication.refillReminder.enabled {
        if LessOrEqual(medication.refillReminder.remainingQuantity, medication.refillReminder.daysBeforeRefill) {
          match FindUser(users, medication.user)
          case None =>
            completed := false;
          case Some(user) =>
            alerts := alerts + [RefillAlert(user.email, medication.name)];
        }
      }
      i := i + 1;
    }
    if !completed {
      RefillAbortStays(meds, users, i, |meds|);
    }
  }
}
