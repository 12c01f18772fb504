# MedRoutine reminder engine, modelled in Dafny

MedRoutine reminds patients to take their medications. Each medication
carries a weekly schedule of `HH:MM` times. Four periodic jobs work on it:

- a daily generator turns today's schedule entries into pending reminder
  documents;
- a dispatcher notifies reminders that fall due within the next five minutes,
  by e-mail, SMS and push, according to the user's preferences;
- a sweeper marks reminders that are still pending thirty minutes after their
  time as missed;
- a refill check reports medications that are running low.

Around these jobs sit the HTTP handlers:

- the reminder handlers (list, today, upcoming, create, taken, missed, snooze,
  skip, statistics);
- the medication handlers (list, get, create, update, delete, toggle active);
- the caregiver handlers (invite, accept, decline, revoke, permissions and
  the three listings);
- the notification-preferences handler;
- the two read-only provider endpoints.

The model keeps the source's own shape:

- The documents the source changes in place are classes:
  - a reminder (`ReminderModel.ReminderDoc`), with `markAsTaken`, `markAsMissed` and `snooze`;
  - a caregiver relationship (`CaregiverModel.CaregiverDoc`), with `acceptInvitation`, `declineInvitation` and `revokeAccess`.
- The collections are classes whose fields the handlers reassign:
  - `ReminderStore.ReminderCollection`
  - `MedicationRoutes.MedicationStore`
  - `CaregiverRoutes.CaregiverCollection`
  - `UserModel.UserCollection`
- Each job and handler is a method with loops where the source loops. It is
  proved against a function on values (`DispatchAll`, `MissedSweep`,
  `Generate`, `RefillUpTo`, the `...Outcome` functions). The properties the
  system promises are lemmas about those functions.
- Medication and user documents are only ever replaced whole, so they are
  datatypes.

A few modelling conventions hold throughout:

- Time is an integer count of milliseconds. The process calendar is UTC, so
  local midnight is `floor(t / DAY) * DAY` and 1 January 1970 is a Thursday.
- A document's id is its position in its collection.
- The dispatcher's and generator's outer `try/catch` ends a sweep at the first
  exception. The model carries this as a `completed` flag. The exceptions are:
  - a reminder whose user or medication no longer exists;
  - a schedule time that `parseInt` cannot read, or one whose slot today lies
    beyond the range of a JavaScript date; either gives an invalid date that
    the lookup query rejects.
- The notification transports are parameters. A send is recorded as a `Send`
  value. The collaborators catch their own failures, so a send never aborts
  the sweep.

In these places the model follows the code where one might expect otherwise:

- The dispatcher writes `sms` into `notificationChannels` whenever SMS is
  switched on, even when no SMS was attempted because the phone is missing or
  unverified.
- No lifecycle transition is guarded. Taken, missed, skip, snooze, accept,
  decline and revoke apply in any prior status, terminal ones included.
- The refill check compares the remaining quantity with `daysBeforeRefill`.
- Manual reminder creation does not look for an existing reminder in the same
  slot.
- A medication update can set `user` and so hand the medication to someone
  else.
- JavaScript's treatment of `null` is kept where it reaches a decision. A
  snooze with `minutes: null` moves the reminder to `now`, because the default
  of 15 replaces only an absent value and `null * 60000` is 0. A snooze whose
  `minutes` is not a number gives an invalid date, the save fails, and the
  handler answers 500. A stored `remainingQuantity: null` compares as 0, so
  the refill check flags it whenever the threshold is not negative. An unset
  quantity is never flagged.
- The invitation's address goes through the schema's `lowercase` and `trim`
  setters before the lookup, as every query on `email` does. Any spelling of
  a stored address that differs only in the case of ASCII letters or in
  surrounding white space therefore finds its user.

The statistics pipelines are the one place where the model departs from the
code. As written, their `$match` never matches anything. The model states
what they evidently intend, and it keeps the code as written beside that
(see "## Findings").

## Model

| member | source | states |
|---|---|---|
| ReminderScheduler.Midnight | utils/reminderScheduler.js:95-96 | today's local midnight is at most `now` and less than a day before it |
| ReminderScheduler.WeekdayOfEpoch | utils/reminderScheduler.js:110 | the weekday name used to pick schedule entries: day 0 is a Thursday and day 4 a Monday |
| ReminderScheduler.LeadingDigits | utils/reminderScheduler.js:117 | `parseInt` reads the longest prefix of digits of the radix and stops at the first non-digit |
| ReminderScheduler.ParseTwoDigits | utils/reminderScheduler.js:117 | `parseInt` of two decimal digits is their value |
| ReminderScheduler.ParseClockWellFormed | utils/reminderScheduler.js:107-117 | an `HH:MM` string of four digits splits and parses to the hours and minutes it spells |
| ReminderScheduler.SlotTimeSameDay | utils/reminderScheduler.js:116-117 | `setHours(h, m, 0, 0)` with a clock reading in range lands on the same day, `h` hours and `m` minutes after midnight |
| ReminderScheduler.Attempts | utils/reminderScheduler.js:27-43 | e-mail is attempted iff switched on, SMS whenever switched on with a phone that is present and verified, push iff switched on, and nothing else, at most three sends |
| ReminderScheduler.RecordedChannels | utils/reminderScheduler.js:48-51 | the recorded channels are exactly the switched-on ones, each once |
| ReminderScheduler.Notified | utils/reminderScheduler.js:45-53 | the saved reminder is marked sent at `now` with the recorded channels and is otherwise unchanged |
| ReminderScheduler.SmsRecordedWithoutAttempt | utils/reminderScheduler.js:31-50 | SMS is recorded as a channel although no SMS was attempted when the phone is not verified |
| ReminderScheduler.NotifyOneEffect | utils/reminderScheduler.js:22-55 | one iteration notifies the reminder when its user exists, completes iff both its user and its medication exist, and sends nothing when it does not complete |
| ReminderScheduler.DispatchUntouched | utils/reminderScheduler.js:22-56 | the loop has not touched the reminders it has not reached yet |
| ReminderScheduler.DispatchOnlyNotifies | utils/reminderScheduler.js:14-53 | every reminder is left as it was or, if it was due, notified; nothing else is changed |
| ReminderScheduler.NotifiedNeverDue | utils/reminderScheduler.js:14-18 | a reminder the dispatcher has marked sent is never selected again, at any time |
| ReminderScheduler.AbortStays | utils/reminderScheduler.js:61-63 | after an exception ends the sweep, no later reminder is looked at |
| ReminderScheduler.CompletedRunNotifiesAllDue | utils/reminderScheduler.js:14-53 | a sweep that completes has notified every due reminder with its owner's channels and leaves none due |
| ReminderScheduler.IdleWhenNothingDue | utils/reminderScheduler.js:14-18 | when nothing is due the sweep sends nothing and writes nothing |
| ReminderScheduler.AttemptOnce | utils/reminderScheduler.js:14-53 | a second sweep at the same instant after a completed one sends and writes nothing |
| ReminderScheduler.AbortHasCause | utils/reminderScheduler.js:22-24 | a sweep stops early only at a due reminder, because of a missing user or medication |
| ReminderScheduler.DueWindowBounds | utils/reminderScheduler.js:10-18 | the window `[now, now + 5 min]` is closed at both ends and excludes the instants just outside it |
| ReminderScheduler.SnoozeRearms | models/Reminder.js:80-89 | a snoozed reminder becomes due again once its new time enters the window |
| ReminderScheduler.SendNotifications | utils/reminderScheduler.js:27-43 | the three guarded sends produce exactly the attempts of the specification |
| ReminderScheduler.RecordNotification | utils/reminderScheduler.js:45-53 | the document afterwards is the notified record |
| ReminderScheduler.NotifyDoc | utils/reminderScheduler.js:22-55 | one loop body changes the document, sends, and reports completion exactly as the specification's single step does |
| ReminderScheduler.DispatchDoc | utils/reminderScheduler.js:14-55 | the `i`-th document is processed only when it is due, and only it changes |
| ReminderScheduler.CheckAndSendReminders | utils/reminderScheduler.js:8-64 | the collection, the sends and the completion flag after the loop are those of the whole sweep |
| ReminderScheduler.MissedSweep | utils/reminderScheduler.js:73-80 | the sweep keeps the collection's length |
| ReminderScheduler.MissedSweepEffect | utils/reminderScheduler.js:69-80 | exactly the pending reminders older than thirty minutes become missed at `now`; all others, one exactly thirty minutes old included, are unchanged |
| ReminderScheduler.MissedSweepIdempotent | utils/reminderScheduler.js:67-88 | a second sweep at the same instant changes nothing |
| ReminderScheduler.CheckMissedReminders | utils/reminderScheduler.js:67-88 | the loop leaves the collection as the sweep's specification says |
| ReminderScheduler.GenEntry | utils/reminderScheduler.js:106-133 | one schedule entry keeps every existing reminder and adds at most one; a time that cannot be read, or whose slot is not a valid date, ends the sweep |
| ReminderScheduler.GenEntries | utils/reminderScheduler.js:106-134 | the entry loop only appends, and after an exception does nothing |
| ReminderScheduler.GenMeds | utils/reminderScheduler.js:102-135 | the medication loop only appends, and after an exception does nothing |
| ReminderScheduler.GenerateIdempotent | utils/reminderScheduler.js:119-126 | a second run on the same day over the first run's result creates nothing and ends the same way |
| ReminderScheduler.GenerateNoDuplicateKeys | utils/reminderScheduler.js:119-131 | no created reminder shares its (user, medication, time) key with any other reminder |
| ReminderScheduler.GenerateCreates | utils/reminderScheduler.js:102-131 | the generator only appends; each new reminder is pending, not notified, strictly in the future at a valid date, at its own id, and comes from today's entry of an active medication |
| ReminderScheduler.PastSlotCreatesNothing | utils/reminderScheduler.js:126 | an entry whose slot is not after `now` creates nothing, and leaves the sweep running when the slot is a valid date |
| ReminderScheduler.OutOfRangeSlotAborts | utils/reminderScheduler.js:116-124 | on one of the last three days a JavaScript date allows, any readable time from hour 96 on (such as `99:00`) lands beyond that range, and the entry ends the sweep without creating anything |
| ReminderScheduler.EntriesComplete | utils/reminderScheduler.js:106-117 | the entry loop completes iff every entry for today's weekday has a readable time whose slot is a valid date |
| ReminderScheduler.MedsComplete | utils/reminderScheduler.js:104-135 | the medication loop completes iff every time it reaches is readable and gives a valid date |
| ReminderScheduler.GenerateCompletes | utils/reminderScheduler.js:91-139 | the generator completes exactly when every schedule time it reaches can be read and gives a valid date today |
| ReminderScheduler.GenerateForEntry | utils/reminderScheduler.js:107-133 | one entry on the collection is the specification's entry step |
| ReminderScheduler.GenerateForMedication | utils/reminderScheduler.js:106-134 | the entry loop on the collection is the specification's entry fold |
| ReminderScheduler.GenerateDailyReminders | utils/reminderScheduler.js:91-139 | the nested loops leave the collection and the completion flag as the whole generation specifies |
| ReminderScheduler.RefillUpTo | utils/reminderScheduler.js:144-158 | the refill loop completes iff every flagged medication it reaches has an existing owner, and reports at most one alert per medication |
| ReminderScheduler.RefillReportsFlagged | utils/reminderScheduler.js:144-157 | a completed refill sweep reports every tracked medication whose remaining quantity is at most `daysBeforeRefill`, once each, in order, with the owner's address |
| ReminderScheduler.NeedsRefillCases | utils/reminderScheduler.js:150 | the threshold test never flags an unset quantity, flags a `null` one iff the threshold is not negative, and otherwise compares the numbers |
| ReminderScheduler.RefillAbortStays | utils/reminderScheduler.js:159-161 | after an exception the refill sweep reports nothing more |
| ReminderScheduler.CheckRefillReminders | utils/reminderScheduler.js:142-162 | the loop's alerts and completion are the specification's |
| ReminderModel.StatusNameInjective | models/Reminder.js:18-22 | the five status names are distinct |
| ReminderModel.NewReminder | models/Reminder.js:3-55 | a new reminder is pending, not notified, with no channels, times, dosage, notes or image, at the given key |
| ReminderModel.TakenEffect | models/Reminder.js:64-70 | marking taken ends in `taken` at `now` from every status, keeps the identity and the notification bookkeeping, and replaces dosage only when given and notes only when non-empty |
| ReminderModel.TakenFrame | models/Reminder.js:64-70 | marking taken changes nothing but status, taken time, dosage and notes |
| ReminderModel.MissedEffect | models/Reminder.js:73-77 | marking missed overwrites any status, a terminal one included, and touches only status and missed time |
| ReminderModel.SnoozeEffect | models/Reminder.js:80-89 | a snooze re-arms the reminder: pending at `now + minutes`, notification bookkeeping cleared, owner, medication and outcome fields kept |
| ReminderModel.SnoozeForgetsOldTime | models/Reminder.js:81-83 | the snoozed time does not depend on the old scheduled time |
| ReminderModel.ReminderDoc.MarkAsTaken | models/Reminder.js:64-70 | the document afterwards is the taken record |
| ReminderModel.ReminderDoc.MarkAsMissed | models/Reminder.js:73-77 | the document afterwards is the missed record |
| ReminderModel.ReminderDoc.Snooze | models/Reminder.js:80-89 | the document afterwards is the snoozed record |
| ReminderStore.ReminderCollection.Create | utils/reminderScheduler.js:127-131 | creating appends one new pending reminder whose id is its position |
| ReminderStore.ValidIndexed | models/Reminder.js:3-55 | every record in a valid collection sits at its own id |
| ReminderRoutes.ListReminders | routes/reminders.js:10-48 | the caller's reminders that pass the optional status, date and medication filters, each exactly as often as stored, latest first |
| ReminderRoutes.ListWithoutFilters | routes/reminders.js:12-35 | without parameters the listing holds all of the caller's reminders |
| ReminderRoutes.UnknownStatusSelectsNothing | routes/reminders.js:16-18 | a status parameter that names no status selects nothing |
| ReminderRoutes.TodayReminders | routes/reminders.js:53-77 | the caller's reminders of the current day, each as often as stored, earliest first |
| ReminderRoutes.TodayIsCalendarDay | routes/reminders.js:55-63 | the range from midnight to 23:59:59.999 is exactly the calendar day of `now` |
| ReminderRoutes.Upcoming | routes/reminders.js:82-106 | at most 20 of the caller's pending reminders of the next seven days, earliest first, each at most as often as the collection holds it |
| ReminderRoutes.SelectedPrefix | routes/reminders.js:86-95 | the first `n` of a sorted selection are in order, are selected elements of the collection, and hold each element at most as often as the collection does |
| ReminderRoutes.UpcomingEarliest | routes/reminders.js:88-95 | every match is returned when there are at most 20; otherwise no match left out is earlier than one returned |
| ReminderRoutes.CreateOutcome | routes/reminders.js:111-143 | 404 iff the medication is not the caller's; 201 iff it is and the time is readable, appending one pending reminder; otherwise 500 with no change |
| ReminderRoutes.ManualCreateDuplicates | routes/reminders.js:116-129 | creating the same slot twice leaves two reminders with one key |
| ReminderRoutes.CreateReminder | routes/reminders.js:111-143 | the collection and reply are the outcome's |
| ReminderRoutes.Act | routes/reminders.js:148-257 | 404 with no change unless the reminder is the caller's; 500 with no change iff a snooze's new time is not a valid date; otherwise the action changes that reminder alone |
| ReminderRoutes.ActKeepsIdentity | routes/reminders.js:150-157 | no action changes a reminder's id, owner or medication, or any other reminder |
| ReminderRoutes.ActionsIgnorePriorStatus | routes/reminders.js:190-245 | skip and missed overwrite any status, a terminal one included; a successful default snooze makes the reminder pending again |
| ReminderRoutes.MarkTaken | routes/reminders.js:148-174 | the collection and reply are those of the taken action |
| ReminderRoutes.MarkMissed | routes/reminders.js:179-201 | the collection and reply are those of the missed action |
| ReminderRoutes.SnoozeReminder | routes/reminders.js:206-229 | the collection and reply are those of the snooze action for whatever `minutes` the body holds, absent, `null`, a number or not a number |
| ReminderRoutes.SnoozeArguments | routes/reminders.js:217-218 | no `minutes` snoozes 15 minutes past `now`, `null` snoozes to `now`, a non-number or an out-of-range time answers 500 and changes nothing |
| ReminderRoutes.SkipReminder | routes/reminders.js:234-257 | the collection and reply are those of the skip assignment |
| ReminderRoutes.GroupsOf | routes/reminders.js:276-284 | each group has a positive count equal to the number of reminders with its status |
| ReminderRoutes.GroupsCover | routes/reminders.js:276-284 | every status that occurs has its group, at the position returned |
| ReminderRoutes.CountsPartition | routes/reminders.js:276-286 | the five per-status counts add up to the number of matched reminders |
| ReminderRoutes.StatsTotal | routes/reminders.js:286 | the total is the number of matched reminders |
| ReminderRoutes.StatsTaken | routes/reminders.js:287 | the taken figure is the number of taken reminders, 0 when there are none |
| ReminderRoutes.AdherenceBounds | routes/reminders.js:288 | the rate lies between 0.00 and 100.00, is the nearest two-decimal value to taken/total, is 0 with nothing taken and 100 with everything taken |
| ReminderRoutes.StatsSelection | routes/reminders.js:266-277 | the matched set is the owner's reminders, restricted to the range only when both bounds are given |
| ReminderRoutes.ReminderStats | routes/reminders.js:262-301 | the groups are the per-status counts of the matched reminders, total and taken count them, and the rate is the taken share rounded to the nearest hundredth of a percent, at most 100.00, and 0 when nothing matches |
| ReminderRoutes.ReminderStatsAsWritten | routes/reminders.js:266-277 | with the `$match` as written, the figures are empty for every collection |
| ReminderRoutes.StatsAsWrittenMissesOwnReminder | routes/reminders.js:266-277 | one taken reminder of the caller counts as total 1 and rate 100.00 in the intended figures and as total 0 as written |
| ReminderRoutes.StatsNeedBothBounds | routes/reminders.js:269 | a single bound does not restrict the statistics |
| MedicationModel.ParseUnit | models/Medication.js:19-23 | the unit enum: accepted iff listed, and read back as the same string |
| MedicationModel.ParseFrequency | models/Medication.js:25-29 | the frequency enum: accepted iff listed, and read back as the same string |
| MedicationModel.ParseWeekday | models/Medication.js:35-37 | the weekday enum: accepted iff a weekday name, and read back as the same string |
| MedicationModel.AllWeekdaysComplete | models/Medication.js:38 | the default `days` holds all seven weekdays |
| MedicationModel.NumericExamples | routes/medications.js:70 | the `isNumeric` validator accepts signed decimal numerals and rejects empty, trailing-point and non-numeric text |
| MedicationModel.NumericMatchesPattern | routes/medications.js:70 | for every text, `isNumeric` holds iff the text matches `[+-]?([0-9]*[.])?[0-9]+` read position by position |
| MedicationModel.CastDays | models/Medication.js:35-39 | a list of days casts iff every name is a weekday, keeping order and length |
| MedicationModel.CastEntry | models/Medication.js:30-40 | an entry casts iff it has a non-empty time and valid days; absent days default to the whole week |
| MedicationModel.CastSchedule | models/Medication.js:30-40 | a schedule casts iff every entry does, entry by entry |
| MedicationModel.CastRefill | models/Medication.js:77-89 | refill settings default to off with a threshold of 7, which only an absent value takes; a given threshold (even `null`) and the given remaining quantity are kept |
| MedicationModel.ParseShape | models/Medication.js:67-70 | a shape is accepted iff it is one of the five listed names, and it reads back as that name |
| MedicationModel.NewMedication | models/Medication.js:3-99 | creation succeeds iff the body casts (required paths present, a decimal amount, unit, frequency, days and shape in their enums); the medication carries the given amount, unit, frequency, schedule, shape, end date and notes, and the schema's defaults elsewhere |
| MedicationModel.FindMedication | utils/reminderScheduler.js:19-24 | the populated medication has the referenced id, or none does |
| MedicationModel.MedicationIndex | routes/medications.js:46-49 | the position of the first medication with the id, agreeing with the lookup |
| MedicationRoutes.OwnsAt | routes/medications.js:46-49 | ownership means the medication at the id's position belongs to the caller |
| MedicationRoutes.ListMedications | routes/medications.js:10-39 | the caller's medications that pass the active, start and end filters, each as often as stored, newest first |
| MedicationRoutes.IsActiveParameter | routes/medications.js:16-18 | any `isActive` value other than "true" selects inactive medications; without it both kinds are listed |
| MedicationRoutes.CreateOutcome | routes/medications.js:68-97 | 400 iff a validator fails; 201 iff the validators pass and the schema cast succeeds, appending the medication the schema builds from the body, owned by the caller, with the next id; otherwise 500 and no change |
| MedicationRoutes.CreateOwnerIsCaller | routes/medications.js:81-84 | a `user` in the body is ignored: the medication belongs to the caller |
| MedicationRoutes.CreateKeepsKeys | routes/medications.js:86 | creation keeps ids distinct and below the next id |
| MedicationRoutes.GetOutcome | routes/medications.js:44-63 | 404 iff the medication is not the caller's; otherwise that medication |
| MedicationRoutes.Patched | routes/medications.js:113-117 | an update keeps id and creation time |
| MedicationRoutes.EmptyPatchKeeps | routes/medications.js:113-117 | a body that names no path changes nothing |
| MedicationRoutes.UpdateOutcome | routes/medications.js:102-128 | 404 iff not the caller's; 500 iff the update fails validation; otherwise only that medication is patched |
| MedicationRoutes.UpdateCanReassignOwner | routes/medications.js:113-117 | an update naming another `user` hands the medication over: the caller no longer owns it |
| MedicationRoutes.DeleteOutcome | routes/medications.js:133-154 | 404 iff not the caller's; otherwise exactly that medication is removed |
| MedicationRoutes.DeleteRemovesExactly | routes/medications.js:144 | after a delete the id is gone and every other medication is still there |
| MedicationRoutes.ToggleOutcome | routes/medications.js:159-182 | 404 iff not the caller's; otherwise only that medication's active flag is inverted |
| MedicationRoutes.ToggleTwice | routes/medications.js:170 | toggling twice restores the collection |
| MedicationRoutes.MedicationStore.Create | routes/medications.js:68-97 | the collection and reply are the creation outcome's, and the ids stay well keyed |
| MedicationRoutes.MedicationStore.Get | routes/medications.js:44-63 | the reply and medication are the lookup outcome's |
| MedicationRoutes.MedicationStore.Update | routes/medications.js:102-128 | the collection and reply are the update outcome's |
| MedicationRoutes.MedicationStore.Delete | routes/medications.js:133-154 | the collection and reply are the delete outcome's |
| MedicationRoutes.MedicationStore.ToggleActive | routes/medications.js:159-182 | the collection and reply are the toggle outcome's |
| UserModel.ParseRole | models/User.js:36-40 | the role enum: accepted iff one of the four roles |
| UserModel.NormalizeEmail | models/User.js:15-22 | a stored address is trimmed and has no upper-case letter |
| UserModel.NormalizeEmailIdempotent | models/User.js:19-20 | normalising a stored address again changes nothing |
| UserModel.NewUser | models/User.js:4-82 | a user is created iff the registration validates, with trimmed non-empty names, a normalised address that matches the pattern, the trimmed phone, the given birth date, the hashed password and every schema default (no image, no last login); the password's minimum length counts UTF-16 code units |
| UserModel.PasswordLengthInCodeUnits | models/User.js:23-28 | four characters from beyond the Basic Multilingual Plane make eight code units, so they meet the minimum, and seven letters do not |
| UserModel.EmailPatternShape | models/User.js:21 | an address the pattern accepts has exactly one `@`, neither first nor last, and no white space |
| UserModel.NewUserNotSmsReachable | models/User.js:48-56 | a new user opts into every channel but cannot be reached by SMS until the phone is verified |
| UserModel.PublicProfile | models/User.js:90-96 | the public profile drops the password and reset-token fields and keeps everything else |
| UserModel.FindUser | utils/reminderScheduler.js:19-23 | the populated user has the referenced id, or none does |
| UserModel.IndexOfUser | routes/notifications.js:31-34 | the position of the first user with the id, or none holds it |
| UserModel.FindUserByEmail | routes/caregivers.js:55 | a user with exactly the given (already cast) address, or none has it |
| UserModel.UserCollection.constructor | models/User.js:15-18 | a collection starts with unique ids and addresses |
| NotificationRoutes.MergePreferences | routes/notifications.js:36-40 | each switch is the request's value when given and the old one otherwise |
| NotificationRoutes.MergePreferencesLaws | routes/notifications.js:36-40 | an empty body changes nothing, the same body twice is the same body once, and a body naming all three switches ignores the old ones |
| NotificationRoutes.PreferencesOutcome | routes/notifications.js:27-53 | 404 and no change iff the caller has no account; otherwise 200 and only the caller's preferences change |
| NotificationRoutes.PreferencesKeepUnique | routes/notifications.js:36-42 | the update keeps ids and addresses unique |
| NotificationRoutes.PreferencesIdempotent | routes/notifications.js:27-53 | repeating the request leaves the collection as the first one did |
| NotificationRoutes.UpdatePreferences | routes/notifications.js:27-53 | the collection and reply are the outcome's, and the collection stays valid |
| CaregiverModel.ParseRelationship | models/Caregiver.js:14-18 | the relationship enum: accepted iff one of the six kinds |
| CaregiverModel.Merge | routes/caregivers.js:194 | each permission is the patch's value when the patch names it and the old one otherwise |
| CaregiverModel.MergeLaws | routes/caregivers.js:194 | an empty patch changes nothing, and the same patch twice is the same patch once |
| CaregiverModel.NewLink | models/Caregiver.js:3-61 | a new relationship is pending with no acceptance or revocation time, invited now, with the default permissions overridden by the given ones |
| CaregiverModel.TransitionEffects | models/Caregiver.js:66-84 | each transition sets its own status and timestamp from any prior status; declining records no time |
| CaregiverModel.PermissionsUpdateFrame | routes/caregivers.js:194-195 | a permissions update touches nothing else and never changes who is linked to whom |
| CaregiverModel.CaregiverDoc.constructor | models/Caregiver.js:3-61 | the new document is the new relationship record |
| CaregiverModel.CaregiverDoc.AcceptInvitation | models/Caregiver.js:67-71 | the document afterwards is the accepted record |
| CaregiverModel.CaregiverDoc.DeclineInvitation | models/Caregiver.js:74-77 | the document afterwards is the declined record |
| CaregiverModel.CaregiverDoc.RevokeAccess | models/Caregiver.js:80-84 | the document afterwards is the revoked record |
| CaregiverRoutes.HasPair | routes/caregivers.js:66-72 | the pair lookup succeeds iff a relationship for the pair exists in any status |
| CaregiverRoutes.InviteOutcome | routes/caregivers.js:50-94 | 404 iff no user has the lower-cased, trimmed address; 400 iff it is the caller or the pair exists; 201 iff the user is found, is not the caller, the pair is new and the relationship is in the enum, appending one pending relationship; otherwise 500 and no change |
| CaregiverRoutes.InviteKeepsWellFormed | models/Caregiver.js:63-64 | inviting keeps pairs unique, ids positional and nobody their own caregiver |
| CaregiverRoutes.InviteNormalizesAddress | routes/caregivers.js:55-57 | inviting by any spelling of an address is inviting by its normal form, and a stored address in that form is always found |
| CaregiverRoutes.AnswerOutcome | routes/caregivers.js:99-152 | 404 and no change unless it is a pending invitation addressed to the caller; otherwise only that relationship is accepted or declined |
| CaregiverRoutes.RevokeOutcome | routes/caregivers.js:157-178 | 404 and no change unless the caller is the patient; otherwise that relationship is revoked from any status |
| CaregiverRoutes.PermissionsOutcome | routes/caregivers.js:183-206 | 404 and no change unless the caller is the patient; otherwise that relationship's permissions are merged, in any status |
| CaregiverRoutes.UpdatesKeepWellFormed | routes/caregivers.js:99-206 | answering, revoking and permission updates keep the collection well formed |
| CaregiverRoutes.AnsweredOnce | routes/caregivers.js:101-108 | after an answer neither answer finds the invitation again, and a revoked one cannot be accepted |
| CaregiverRoutes.SidesAreSeparate | routes/caregivers.js:101-191 | the patient cannot answer their own invitation, and the caregiver can neither revoke nor change permissions |
| CaregiverRoutes.Caregivers | routes/caregivers.js:10-25 | the caller's caregiver relationships in every status, each as often as stored, newest first |
| CaregiverRoutes.Patients | routes/caregivers.js:30-45 | the relationships in which the caller is an active caregiver, newest first |
| CaregiverRoutes.PendingInvitations | routes/caregivers.js:211-229 | the invitations waiting for the caller's answer, newest first |
| CaregiverRoutes.AcceptMovesToPatients | routes/caregivers.js:99-125 | accepting moves an invitation from the caller's pending list to their patients |
| CaregiverRoutes.CaregiverCollection.Invite | routes/caregivers.js:50-94 | the collection and reply are the invite outcome's, and the collection stays well formed |
| CaregiverRoutes.CaregiverCollection.Answer | routes/caregivers.js:99-152 | the collection and reply are the answer outcome's |
| CaregiverRoutes.CaregiverCollection.Revoke | routes/caregivers.js:157-178 | the collection and reply are the revoke outcome's |
| CaregiverRoutes.CaregiverCollection.UpdatePermissions | routes/caregivers.js:183-206 | the collection and reply are the permissions outcome's |
| ProviderRoutes.PatientMedications | routes/providers.js:30-49 | the patient's active medications, each as often as stored, newest first |
| ProviderRoutes.ProviderSeesActiveListing | routes/providers.js:35-38 | a provider sees the same medications as the patient listing their own with `isActive=true` |
| ProviderRoutes.MedicationsIgnoreOthers | routes/providers.js:35-38 | other patients' medications never change a patient's list |
| ProviderRoutes.PatientAdherence | routes/providers.js:54-96 | the patient's reminders, in the period only when both bounds are given, counted per status, with total, taken, and the rate rounded to the nearest hundredth of a percent (0 when nothing matches), and the period echoed back |
| ProviderRoutes.AdherenceIgnoresOthers | routes/providers.js:58-77 | other patients' reminders never change a patient's adherence figures |

## Left out

- The cron wiring (`startScheduler`) is left out. Each job is a method called with the instant it runs at. Overlapping runs and concurrency in general are not modelled.
- The notification transports (e-mail, SMS, push) are left out. A send is a recorded value, and the message texts are not modelled.
- The other `console.log` lines are left out, and the text of every log line is not modelled. The refill job's log line (`utils/reminderScheduler.js:153`) is its only effect, so it is modelled as that job's report: a `RefillAlert` of the owner's address and the medication's name, where reading the address of a missing owner throws and ends the sweep. The dispatcher's log line is modelled as a read of the medication, which can throw.
- Password hashing and comparison (bcrypt) are left out. `NewUser` takes the hash function as a parameter; `comparePassword` is not modelled.
- Time zones are left out: the process calendar is taken to be UTC.
- Parsing of date strings is left out. Date parameters arrive as optional instants, and an empty string is absent. Reading a request's `scheduledTime` that cannot be parsed becomes `None` (the 500 path).
- NewMedication: the optional free-text paths `prescribedBy`, `reason`, `instructions`, `sideEffects`, `interactions`, `color` and `imageUrl` are not carried. They have no validator or enumeration, so they cannot make creation fail, and no handler or job reads them. `shape` is carried, because its enumeration can fail creation. The amount is read as a decimal numeral. Mongoose's own `Number` cast also takes surrounding white space, hexadecimal and exponent forms, but the route's `isNumeric` validator rejects those before the cast, so the two agree on every request that reaches it.
- UpdateOutcome: the patch arrives already cast to the schema's types. An update naming an unknown dosage unit, frequency or shape, which the update validators turn into a 500, is therefore outside the model.
- NormalizeEmail: only ASCII letters are lower-cased. JavaScript's `toLowerCase` also maps other letters (the Kelvin sign U+212A becomes `k`, for instance). An invitation to such a spelling of a stored address is answered 404 in the model, where the source finds the user.
- NewUser: a registration whose address matches the pattern only after full Unicode lower-casing (such as one spelled with U+212A) is rejected in the model and accepted by the source, for the reason given for NormalizeEmail.
- GenEntry: the slot is computed with exact integers. JavaScript computes it in double precision, which differs only when the parsed hours or minutes exceed 2^53 in magnitude and cancel each other back into the date range.
- SnoozeReminder: `minutes` is a whole number of minutes. A fractional value, which moves the reminder to an instant between whole minutes, is not modelled.
- Mongoose casting of update and permission bodies is left out. They arrive already cast to typed optional fields, and unknown keys are dropped. A cast error on such a body is not modelled.
- Malformed request values are left out, and this weakens `ReminderRoutes.Act`, `ReminderRoutes.CreateOutcome`, `ReminderRoutes.ListReminders`, `MedicationRoutes.GetOutcome`, `UpdateOutcome`, `DeleteOutcome`, `ToggleOutcome`, `CaregiverRoutes.InviteOutcome`, `AnswerOutcome`, `RevokeOutcome`, `PermissionsOutcome`, `NotificationRoutes.PreferencesOutcome` and `ProviderRoutes.PatientMedications`. Every id is taken to be a well-formed ObjectId: a route `:id` or `:patientId`, a body `medicationId`, or the `medicationId` query. The taken, invite and preferences bodies are taken to arrive with their schema types. In the source, an id that is not an ObjectId makes `findOne`/`find` throw a cast error, and the route answers 500 where the model answers 404 or succeeds. A taken body whose `dosage.amount` is not a number fails `markAsTaken`'s save with a 500, where the model's `Act` records it. A preference switch that does not cast to a boolean (such as `"maybe"`) fails `user.save()` with a 500, where the model updates the preferences. An invite `email` that is an object (such as `{"$gt": ""}`) reaches `User.findOne` as a query operator and can find an unrelated user, where the model only compares addresses.
- Floating-point values are left out. Dosage amounts and refill quantities are `real`. The adherence rate is an integer number of hundredths of a percent, rounded half up.
- The order of `$group` results is unspecified in the source. The model lists the groups in the order of the status enum.
- Sorting ties are left out. The source's sort leaves equal keys in an unspecified order; the model uses a stable sort, which is one admissible order.
- `createdAt`/`updatedAt` timestamps are left out, except `createdAt` where a listing sorts by it. `populate` projections are also left out: replies carry the documents themselves.
- The provider access request (`routes/providers.js:10-25`) is left out: it changes no state and only replies.
- `GET /api/notifications` and `POST /api/notifications/test` are left out: both only reply.
- The source reads the clock several times within one handler or job. The model reads it once, as `now`, per handler or job.
- A `null` request body is not modelled.
- `routes/users.js`, `init/data.js`, `public/app.js`, `app.js` and `utils/notifications.js` are not part of this model.
- The `protect` and `authorize` middleware are left out: the caller's id arrives as a parameter, and the provider role check is not modelled.

## Findings

| source | as written | input that shows it | evidently intended | confidence | as-written member | corrected member |
|---|---|---|---|---|---|---|
| routes/reminders.js:266-277 | the statistics pipeline's `$match` compares the stored ObjectId `user` with `req.user.id`, a string; aggregation stages are not cast, so nothing matches and the figures are always empty | one taken reminder of the caller: total 0 and rate 0 instead of total 1 and rate 100.00 | match the caller's reminders, with the id cast to an ObjectId | high, following Mongoose's documented rule that aggregation pipelines are not cast; not executed | ReminderRoutes.StatsAsWrittenMissesOwnReminder | ReminderRoutes.ReminderStats |
| routes/providers.js:58-77 | the same `$match` with `req.params.patientId`, a string, against the stored ObjectId: a provider always sees empty adherence figures | one taken reminder of the patient: total 0 instead of 1 | match the patient's reminders, with the id cast to an ObjectId | high, following Mongoose's documented rule that aggregation pipelines are not cast; not executed | ReminderRoutes.ReminderStatsAsWritten | ProviderRoutes.PatientAdherence |
