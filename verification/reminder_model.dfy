/**
 * The Reminder document: one concrete occurrence of "take this medication at
 * this time", its schema defaults, and the three methods that move it through
 * its lifecycle in place (`markAsTaken`, `markAsMissed`, `snooze`).
 *
 * `Reminder` is the value of a document; `ReminderDoc` is the mutable
 * document itself. Each method of `ReminderDoc` is specified by a function on
 * `Reminder` values (`TakenRecord`, `MissedRecord`, `SnoozedRecord`), and the
 * lemmas below state what those functions promise.
 */
module ReminderModel {
  import opened Common

  datatype Status = Pending | Taken | Missed | Skipped | Snoozed

  /** The enum strings of the `status` path, as stored and as queried. */
  function StatusName(s: Status): string
  {
    match s
    case Pending => "pending"
    case Taken => "taken"
    case Missed => "missed"
    case Skipped => "skipped"
    case Snoozed => "snoozed"
  }

  lemma StatusNameInjective(a: Status, b: Status)
    ensures StatusName(a) == StatusName(b) <==> a == b
  {
  }

  datatype Channel = EmailChannel | SmsChannel | PushChannel

  /** What the patient reports having taken: a free `{amount, unit}` object. */
  datatype DosageTaken = DosageTaken(amount: Option<real>, unit: Option<string>)

  /**
   * The value of a reminder document. `id` is the document's position in the
   * reminder collection, which is only ever appended to.
   */
  datatype Reminder = Reminder(
    id: nat,
    user: nat,
    medication: nat,
    scheduledTime: Time,
    status: Status,
    takenAt: Option<Time>,
    missedAt: Option<Time>,
    snoozeUntil: Option<Time>,
    notificationSent: bool,
    notificationSentAt: Option<Time>,
    notificationChannels: seq<Channel>,
    dosageTaken: Option<DosageTaken>,
    notes: Option<string>,
    imageProof: Option<string>)

  /** The identity the generator deduplicates on: (user, medication, scheduledTime). */
  datatype SlotKey = SlotKey(user: nat, medication: nat, scheduledTime: Time)

  function Key(r: Reminder): SlotKey
  {
    SlotKey(r.user, r.medication, r.scheduledTime)
  }

  /** `Reminder.create({user, medication, scheduledTime})` with the schema's defaults. */
  function NewReminder(id: nat, user: nat, medication: nat, scheduledTime: Time): (r: Reminder)
    ensures r.id == id && Key(r) == SlotKey(user, medication, scheduledTime)
    ensures r.status == Pending
    ensures !r.notificationSent && r.notificationSentAt == None && r.notificationChannels == []
    ensures r.takenAt == None && r.missedAt == None && r.snoozeUntil == None
    ensures r.dosageTaken == None && r.notes == None && r.imageProof == None
  {
    Reminder(id, user, medication, scheduledTime, Pending, None, None, None,
             false, None, [], None, None, None)
  }

  /**
   * `markAsTaken(dosage, notes)`: status and time are set whatever the prior
   * status; `dosageTaken` is replaced when a dosage object is given (any object
   * is truthy) and `notes` only when the given string is non-empty (the empty
   * string is falsy).
   */
  function TakenRecord(r: Reminder, now: Time, dosage: Option<DosageTaken>, notes: Option<string>): Reminder
  {
    r.(status := Taken,
       takenAt := Some(now),
       dosageTaken := if dosage.Some? then dosage else r.dosageTaken,
       notes := if notes.Some? && notes.value != "" then notes else r.notes)
  }

  /** `markAsMissed()`: status and time are set whatever the prior status. */
  function MissedRecord(r: Reminder, now: Time): Reminder
  {
    r.(status := Missed, missedAt := Some(now))
  }

  /** The instant a snooze of `minutes` minutes requested at `now` moves the reminder to. */
  function SnoozeTarget(now: Time, minutes: int): Time
  {
    now + minutes * MINUTE
  }

  /**
   * `snooze(minutes)`: the reminder is re-armed as a fresh pending occurrence
   * at `now + minutes`, with its notification bookkeeping cleared.
   */
  function SnoozedRecord(r: Reminder, now: Time, minutes: int): Reminder
  {
    var t := SnoozeTarget(now, minutes);
    r.(snoozeUntil := Some(t),
       scheduledTime := t,
       status := Pending,
       notificationSent := false,
       notificationSentAt := None,
       notificationChannels := [])
  }

  /** The skip handler's in-place assignment of `status`. */
  function SkippedRecord(r: Reminder): Reminder
  {
    r.(status := Skipped)
  }

  // ---------------------------------------------------------------------------
  // What the lifecycle functions promise

  /**
   * Marking as taken ends in `taken` from every status (there is no guard on
   * the prior status), keeps the identity of the reminder and its notification
   * bookkeeping, and overwrites dosage and notes only when they are supplied.
   */
  lemma TakenEffect(r: Reminder, now: Time, dosage: Option<DosageTaken>, notes: Option<string>)
    ensures var t := TakenRecord(r, now, dosage, notes);
      && t.status == Taken && t.takenAt == Some(now)
      && t.id == r.id && Key(t) == Key(r)
      && t.notificationSent == r.notificationSent
      && t.notificationChannels == r.notificationChannels
      && t.missedAt == r.missedAt && t.snoozeUntil == r.snoozeUntil
      && (dosage.None? ==> t.dosageTaken == r.dosageTaken)
      && (dosage.Some? ==> t.dosageTaken == dosage)
      && (notes == None || notes == Some("") ==> t.notes == r.notes)
      && (notes.Some? && notes.value != "" ==> t.notes == notes)
  {
  }

  /** Only `status`, `takenAt`, `dosageTaken` and `notes` can differ after marking as taken. */
  lemma TakenFrame(r: Reminder, now: Time, dosage: Option<DosageTaken>, notes: Option<string>)
    ensures var t := TakenRecord(r, now, dosage, notes);
      t.(status := r.status, takenAt := r.takenAt, dosageTaken := r.dosageTaken, notes := r.notes) == r
  {
  }

  /** Marking as missed overwrites even a terminal status, and touches nothing but two fields. */
  lemma MissedEffect(r: Reminder, now: Time)
    ensures var m := MissedRecord(r, now);
      && m.status == Missed && m.missedAt == Some(now)
      && m.(status := r.status, missedAt := r.missedAt) == r
  {
  }

  /**
   * The snoozed time depends on `now` and `minutes` only, never on the old
   * scheduled time; the reminder is pending again with cleared bookkeeping,
   * and its user, medication and outcome fields are kept.
   */
  lemma SnoozeEffect(r: Reminder, now: Time, minutes: int)
    ensures var s := SnoozedRecord(r, now, minutes);
      && s.scheduledTime == now + minutes * MINUTE
      && s.snoozeUntil == Some(s.scheduledTime)
      && s.status == Pending
      && !s.notificationSent && s.notificationSentAt == None && s.notificationChannels == []
      && s.id == r.id && s.user == r.user && s.medication == r.medication
      && s.takenAt == r.takenAt && s.missedAt == r.missedAt
      && s.dosageTaken == r.dosageTaken && s.notes == r.notes && s.imageProof == r.imageProof
  {
  }

  /** Two reminders that differ only in when they were due snooze to the same record. */
  lemma SnoozeForgetsOldTime(r: Reminder, t: Time, now: Time, minutes: int)
    ensures SnoozedRecord(r, now, minutes) == SnoozedRecord(r.(scheduledTime := t), now, minutes)
  {
  }

  // ---------------------------------------------------------------------------
  // The mutable document

  class ReminderDoc {
    const id: nat
    var user: nat
    var medication: nat
    var scheduledTime: Time
    var status: Status
    var takenAt: Option<Time>
    var missedAt: Option<Time>
    var snoozeUntil: Option<Time>
    var notificationSent: bool
    var notificationSentAt: Option<Time>
    var notificationChannels: seq<Channel>
    var dosageTaken: Option<DosageTaken>
    var notes: Option<string>
    var imageProof: Option<string>

    /** The current value of the document. */
    function View(): (r: Reminder)
      reads this
      ensures r.id == id
    {
      Reminder(id, user, medication, scheduledTime, status, takenAt, missedAt, snoozeUntil,
               notificationSent, notificationSentAt, notificationChannels, dosageTaken, notes, imageProof)
    }

    constructor (id: nat, user: nat, medication: nat, scheduledTime: Time)
      ensures View() == NewReminder(id, user, medication, scheduledTime)
    {
      this.id := id;
      this.user := user;
      this.medication := medication;
      this.scheduledTime := scheduledTime;
      status := Pending;
      takenAt, missedAt, snoozeUntil := None, None, None;
      notificationSent := false;
      notificationSentAt := None;
      notificationChannels := [];
      dosageTaken, notes, imageProof := None, None, None;
    }

    method MarkAsTaken(now: Time, dosage: Option<DosageTaken>, notes: Option<string>)
      modifies this
      ensures View() == TakenRecord(old(View()), now, dosage, notes)
    {
      status := Taken;
      takenAt := Some(now);
      if dosage.Some? {
        dosageTaken := dosage;
      }
      if notes.Some? && notes.value != "" {
        this.notes := notes;
      }
    }

    method MarkAsMissed(now: Time)
      modifies this
      ensures View() == MissedRecord(old(View()), now)
    {
      status := Missed;
      missedAt := Some(now);
    }

    method Snooze(now: Time, minutes: int := 15)
      modifies this
      ensures View() == SnoozedRecord(old(View()), now, minutes)
    {
      var newReminderTime := now + minutes * MINUTE;
      snoozeUntil := Some(newReminderTime);
      scheduledTime := newReminderTime;
      status := Pending;
      notificationSent := false;
      notificationSentAt := None;
      notificationChannels := [];
    }
  }
}
