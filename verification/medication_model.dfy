/**
 * The Medication schema: its enumerations, the weekly schedule entries, the
 * refill settings, and what saving a body does (casting each path, applying
 * defaults, and rejecting values outside the enumerations).
 */
module MedicationModel {
  import opened Common

  datatype DosageUnit = Mg | Ml | G | Mcg | Units | Drops | Tablets | Capsules | Teaspoons | Tablespoons

  const UnitNames: seq<string> :=
    ["mg", "ml", "g", "mcg", "units", "drops", "tablets", "capsules", "teaspoons", "tablespoons"]

  function UnitName(u: DosageUnit): string
  {
    match u
    case Mg => "mg"
    case Ml => "ml"
    case G => "g"
    case Mcg => "mcg"
    case Units => "units"
    case Drops => "drops"
    case Tablets => "tablets"
    case Capsules => "capsules"
    case Teaspoons => "teaspoons"
    case Tablespoons => "tablespoons"
  }

  function ParseUnit(s: string): (r: Option<DosageUnit>)
    ensures r.Some? <==> s in UnitNames
    ensures r.Some? ==> UnitName(r.value) == s
  {
    if s == "mg" then Some(Mg)
    else if s == "ml" then Some(Ml)
    else if s == "g" then Some(G)
    else if s == "mcg" then Some(Mcg)
    else if s == "units" then Some(Units)
    else if s == "drops" then Some(Drops)
    else if s == "tablets" then Some(Tablets)
    else if s == "capsules" then Some(Capsules)
    else if s == "teaspoons" then Some(Teaspoons)
    else if s == "tablespoons" then Some(Tablespoons)
    else None
  }

  datatype Frequency =
    OnceDaily | TwiceDaily | ThreeTimesDaily | FourTimesDaily | EveryXHours | AsNeeded | Weekly | Monthly | Custom

  const FrequencyNames: seq<string> :=
    ["once_daily", "twice_daily", "three_times_daily", "four_times_daily", "every_x_hours",
     "as_needed", "weekly", "monthly", "custom"]

  function FrequencyName(f: Frequency): string
  {
    match f
    case OnceDaily => "once_daily"
    case TwiceDaily => "twice_daily"
    case ThreeTimesDaily => "three_times_daily"
    case FourTimesDaily => "four_times_daily"
    case EveryXHours => "every_x_hours"
    case AsNeeded => "as_needed"
    case Weekly => "weekly"
    case Monthly => "monthly"
    case Custom => "custom"
  }

  function ParseFrequency(s: string): (r: Option<Frequency>)
    ensures r.Some? <==> s in FrequencyNames
    ensures r.Some? ==> FrequencyName(r.value) == s
  {
    if s == "once_daily" then Some(OnceDaily)
    else if s == "twice_daily" then Some(TwiceDaily)
    else if s == "three_times_daily" then Some(ThreeTimesDaily)
    else if s == "four_times_daily" then Some(FourTimesDaily)
    else if s == "every_x_hours" then Some(EveryXHours)
    else if s == "as_needed" then Some(AsNeeded)
    else if s == "weekly" then Some(Weekly)
    else if s == "monthly" then Some(Monthly)
    else if s == "custom" then Some(Custom)
    else None
  }

  datatype Weekday = Monday | Tuesday | Wednesday | Thursday | Friday | Saturday | Sunday

  function WeekdayName(d: Weekday): string
  {
    match d
    case Monday => "monday"
    case Tuesday => "tuesday"
    case Wednesday => "wednesday"
    case Thursday => "thursday"
    case Friday => "friday"
    case Saturday => "saturday"
    case Sunday => "sunday"
  }

  function ParseWeekday(s: string): (r: Option<Weekday>)
    ensures r.Some? ==> WeekdayName(r.value) == s
    ensures forall d: Weekday :: s == WeekdayName(d) ==> r == Some(d)
  {
    if s == "monday" then Some(Monday)
    else if s == "tuesday" then Some(Tuesday)
    else if s == "wednesday" then Some(Wednesday)
    else if s == "thursday" then Some(Thursday)
    else if s == "friday" then Some(Friday)
    else if s == "saturday" then Some(Saturday)
    else if s == "sunday" then Some(Sunday)
    else None
  }

  /** The default of a schedule entry's `days`: the whole week. */
  const AllWeekdays: seq<Weekday> := [Monday, Tuesday, Wednesday, Thursday, Friday, Saturday, Sunday]

  lemma AllWeekdaysComplete(d: Weekday)
    ensures d in AllWeekdays
    ensures |AllWeekdays| == 7
  {
  }

  /** The `shape` enumeration; `OtherShape` is the value "other". */
  datatype Shape = Round | Oval | Capsule | Rectangular | OtherShape

  const ShapeNames: seq<string> := ["round", "oval", "capsule", "rectangular", "other"]

  function ShapeName(sh: Shape): string
  {
    match sh
    case Round => "round"
    case Oval => "oval"
    case Capsule => "capsule"
    case Rectangular => "rectangular"
    case OtherShape => "other"
  }

  function ParseShape(s: string): (r: Option<Shape>)
    ensures r.Some? <==> s in ShapeNames
    ensures r.Some? ==> ShapeName(r.value) == s
  {
    if s == "round" then Some(Round)
    else if s == "oval" then Some(Oval)
    else if s == "capsule" then Some(Capsule)
    else if s == "rectangular" then Some(Rectangular)
    else if s == "other" then Some(OtherShape)
    else None
  }

  datatype Dosage = Dosage(amount: real, unit: DosageUnit)

  /** `time` is an "HH:MM" string by convention only; the schema checks presence, not shape. */
  datatype ScheduleEntry = ScheduleEntry(time: string, days: seq<Weekday>)

  /**
   * A number path as stored: never written, written as JSON `null` (a schema
   * default replaces only the first), or a number.
   */
  datatype NumberField = Unset | Null | Num(value: real)

  /** JavaScript's `ToNumber` on the field: `undefined` is NaN (`None`), `null` is 0. */
  function ToNumber(f: NumberField): Option<real>
  {
    match f
    case Unset => None
    case Null => Some(0.0)
    case Num(v) => Some(v)
  }

  /** JavaScript's `a <= b` on two number paths: false as soon as either side is NaN. */
  predicate LessOrEqual(a: NumberField, b: NumberField)
  {
    ToNumber(a).Some? && ToNumber(b).Some? && ToNumber(a).value <= ToNumber(b).value
  }

  datatype RefillReminder = RefillReminder(enabled: bool, daysBeforeRefill: NumberField, remainingQuantity: NumberField)

  const DefaultRefill := RefillReminder(false, Num(7.0), Unset)

  datatype Medication = Medication(
    id: nat,
    user: nat,
    name: string,
    dosage: Dosage,
    frequency: Frequency,
    schedule: seq<ScheduleEntry>,
    startDate: Time,
    endDate: Option<Time>,
    shape: Option<Shape>,
    refillReminder: RefillReminder,
    isActive: bool,
    notes: Option<string>,
    createdAt: Time)

  // ---------------------------------------------------------------------------
  // Bodies as they arrive, before casting

  datatype DosageBody = DosageBody(amount: Option<string>, unit: Option<string>)

  datatype EntryBody = EntryBody(time: Option<string>, days: Option<seq<string>>)

  datatype RefillBody = RefillBody(enabled: Option<bool>, daysBeforeRefill: NumberField, remainingQuantity: NumberField)

  /**
   * A medication body. `dosage.amount` is carried as the text of the JSON value
   * (what the request validator inspects). Absent paths are `None`.
   */
  datatype MedicationBody = MedicationBody(
    user: Option<nat>,
    name: Option<string>,
    dosage: Option<DosageBody>,
    frequency: Option<string>,
    schedule: Option<seq<EntryBody>>,
    startDate: Option<Time>,
    endDate: Option<Time>,
    shape: Option<string>,
    refillReminder: Option<RefillBody>,
    isActive: Option<bool>,
    notes: Option<string>)

  // ---------------------------------------------------------------------------
  // Decimal numerals: [+-]?([0-9]*[.])?[0-9]+

  predicate IsDigit(c: char)
  {
    '0' <= c <= '9'
  }

  predicate AllDigits(s: string)
  {
    forall i :: 0 <= i < |s| ==> IsDigit(s[i])
  }

  function DigitsValue(s: string): (n: nat)
    requires AllDigits(s)
  {
    if s == [] then 0 else 10 * DigitsValue(s[..|s| - 1]) + (s[|s| - 1] as int - '0' as int)
  }

  function Pow10(k: nat): (p: nat)
    ensures p >= 1
  {
    if k == 0 then 1 else 10 * Pow10(k - 1)
  }

  /** Position `p` of `s` holds the point, with digits before it and at least one digit after it. */
  predicate PointAt(s: string, p: nat)
  {
    p + 1 < |s| && s[p] == '.' && AllDigits(s[..p]) && AllDigits(s[p + 1..])
  }

  /** The unsigned part: digits, or digits, a point and at least one digit. */
  function UnsignedValue(s: string): Option<real>
  {
    if s != [] && AllDigits(s) then Some(DigitsValue(s) as real)
    else if exists p | 0 <= p < |s| :: PointAt(s, p) then
      var p :| 0 <= p < |s| && PointAt(s, p);
      Some(DigitsValue(s[..p]) as real + DigitsValue(s[p + 1..]) as real / Pow10(|s| - p - 1) as real)
    else None
  }

  /** The numeral's value, or `None` when the text is not a decimal numeral. */
  function DecimalValue(s: string): Option<real>
  {
    if s != [] && s[0] == '-' then
      match UnsignedValue(s[1..])
      case Some(v) => Some(-v)
      case None => None
    else if s != [] && s[0] == '+' then UnsignedValue(s[1..])
    else UnsignedValue(s)
  }

  predicate IsNumeric(s: string)
  {
    DecimalValue(s).Some?
  }

  /** From sign position `i`, `s[i..j]` is empty or digits closed by a point, and `s[j..]` is digits. */
  predicate PatternTail(s: string, i: nat, j: nat)
  {
    i <= j < |s| && (j == i || (s[j - 1] == '.' && AllDigits(s[i..j - 1]))) && AllDigits(s[j..])
  }

  /**
   * The pattern `[+-]?([0-9]*[.])?[0-9]+` read off position by position:
   * `s[..i]` is the optional sign, `s[i..j]` the optional group of digits
   * closed by a point, and `s[j..]` the digits that must follow.
   */
  predicate NumeralParts(s: string, i: nat, j: nat)
  {
    && (i == 0 || (i == 1 && |s| >= 1 && (s[0] == '+' || s[0] == '-')))
    && PatternTail(s, i, j)
  }

  /** The whole text matches the numeral pattern. */
  predicate NumeralPattern(s: string)
  {
    exists i, j | 0 <= i <= j < |s| :: NumeralParts(s, i, j)
  }

  /** A split of the pattern's tail gives the unsigned reading something to read. */
  lemma TailReads(s: string, i: nat, j: nat)
    requires PatternTail(s, i, j)
    ensures UnsignedValue(s[i..]).Some?
  {
    var u := s[i..];
    if j == i {
      assert u == s[j..];
    } else {
      var p := j - 1 - i;
      assert u[..p] == s[i..j - 1];
      assert u[p + 1..] == s[j..];
      assert PointAt(u, p);
    }
  }

  /** What the unsigned reading accepts splits as the pattern's tail. */
  lemma ReadsTail(s: string, i: nat) returns (j: nat)
    requires i <= |s| && UnsignedValue(s[i..]).Some?
    ensures PatternTail(s, i, j)
  {
    var u := s[i..];
    if u != [] && AllDigits(u) {
      j := i;
      assert s[j..] == u;
    } else {
      var p :| 0 <= p < |u| && PointAt(u, p);
      j := i + p + 1;
      assert s[i..j - 1] == u[..p];
      assert s[j..] == u[p + 1..];
    }
  }

  /** `isNumeric` accepts exactly the texts matching `[+-]?([0-9]*[.])?[0-9]+`. */
  lemma NumericMatchesPattern(s: string)
    ensures IsNumeric(s) <==> NumeralPattern(s)
  {
    var signed := s != [] && (s[0] == '-' || s[0] == '+');
    var i: nat := if signed then 1 else 0;
    assert s[0..] == s;
    assert IsNumeric(s) <==> UnsignedValue(s[i..]).Some?;
    if IsNumeric(s) {
      var j := ReadsTail(s, i);
      assert NumeralParts(s, i, j);
    }
    if NumeralPattern(s) {
      var i', j :| 0 <= i' <= j < |s| && NumeralParts(s, i', j);
      if i' == 0 {
        UnsignedStart(s, j);
      }
      TailReads(s, i, j);
    }
  }

  /** A numeral read without a sign starts with a digit or a point, never with a sign. */
  lemma UnsignedStart(s: string, j: nat)
    requires NumeralParts(s, 0, j)
    ensures s[0] != '+' && s[0] != '-'
  {
    if j == 0 {
      assert s[0] == s[j..][0];
    } else if j > 1 {
      assert s[0] == s[0..j - 1][0];
    }
  }

  lemma NumericExamples()
    ensures IsNumeric("5") && IsNumeric("-2.5") && IsNumeric(".5")
    ensures !IsNumeric("") && !IsNumeric("5.") && !IsNumeric("abc")
  {
    assert AllDigits("5");
    assert UnsignedValue("5") == Some(5.0);
    assert "-2.5"[1..] == "2.5";
    assert "2.5"[1] == '.' && AllDigits("2.5"[..1]) && AllDigits("2.5"[2..]);
    assert PointAt("2.5", 1);
    assert ".5"[0] == '.' && AllDigits(".5"[..0]) && AllDigits(".5"[1..]);
    assert PointAt(".5", 0);
    assert !IsDigit("5."[1]);
    assert !IsDigit("abc"[0]);
  }

  // ---------------------------------------------------------------------------
  // Casting a body into a document

  function CastDays(ds: seq<string>): (r: Option<seq<Weekday>>)
    ensures r.Some? ==> |r.value| == |ds| && forall i :: 0 <= i < |ds| ==> WeekdayName(r.value[i]) == ds[i]
    ensures r.None? ==> exists i :: 0 <= i < |ds| && ParseWeekday(ds[i]).None?
  {
    if ds == [] then Some([])
    else
      match (ParseWeekday(ds[0]), CastDays(ds[1..]))
      case (Some(d), Some(rest)) => Some([d] + rest)
      case (None, _) => None
      case (_, None) => None
  }

  /** A schedule entry: `time` is required (a missing or empty string fails); `days` defaults to the whole week. */
  function CastEntry(e: EntryBody): (r: Option<ScheduleEntry>)
    ensures r.Some? <==> e.time.Some? && e.time.value != "" && (e.days.Some? ==> CastDays(e.days.value).Some?)
    ensures r.Some? ==> r.value.time == e.time.value
    ensures r.Some? && e.days.None? ==> r.value.days == AllWeekdays
  {
    if e.time.None? || e.time.value == "" then None
    else if e.days.None? then Some(ScheduleEntry(e.time.value, AllWeekdays))
    else match CastDays(e.days.value)
      case None => None
      case Some(ds) => Some(ScheduleEntry(e.time.value, ds))
  }

  function CastSchedule(es: seq<EntryBody>): (r: Option<seq<ScheduleEntry>>)
    ensures r.Some? <==> forall i :: 0 <= i < |es| ==> CastEntry(es[i]).Some?
    ensures r.Some? ==> |r.value| == |es| && forall i :: 0 <= i < |es| ==> Some(r.value[i]) == CastEntry(es[i])
  {
    if es == [] then Some([])
    else
      match (CastEntry(es[0]), CastSchedule(es[1..]))
      case (Some(e), Some(rest)) => Some([e] + rest)
      case (None, _) => None
      case (_, None) =>
        assert forall i :: 1 <= i < |es| ==> es[1..][i - 1] == es[i];
        None
  }

  function CastRefill(b: Option<RefillBody>): (r: RefillReminder)
    ensures b.None? ==> r == DefaultRefill
    ensures b.Some? ==> r.remainingQuantity == b.value.remainingQuantity
    ensures !r.enabled <== (b.None? || b.value.enabled.None?)
    ensures (b.None? || b.value.daysBeforeRefill.Unset?) ==> r.daysBeforeRefill == Num(7.0)
    ensures b.Some? && !b.value.daysBeforeRefill.Unset? ==> r.daysBeforeRefill == b.value.daysBeforeRefill
    ensures !r.daysBeforeRefill.Unset?
  {
    match b
    case None => DefaultRefill
    case Some(rb) =>
      RefillReminder(
        if rb.enabled.Some? then rb.enabled.value else false,
        if rb.daysBeforeRefill.Unset? then Num(7.0) else rb.daysBeforeRefill,
        rb.remainingQuantity)
  }

  /**
   * What the schema accepts: every required path present and every enum value
   * listed. The amount is read as a decimal numeral, the form the route's
   * `isNumeric` validator lets through; Mongoose's own `Number` cast would
   * also take surrounding white space, hexadecimal and exponent forms, which
   * that validator rejects before the cast is reached.
   */
  predicate Castable(body: MedicationBody)
  {
    && body.user.Some?
    && body.name.Some? && Trim(body.name.value) != ""
    && body.dosage.Some?
    && body.dosage.value.amount.Some? && IsNumeric(body.dosage.value.amount.value)
    && body.dosage.value.unit.Some? && ParseUnit(body.dosage.value.unit.value).Some?
    && body.frequency.Some? && ParseFrequency(body.frequency.value).Some?
    && (body.schedule.Some? ==> CastSchedule(body.schedule.value).Some?)
    && (body.shape.Some? ==> ParseShape(body.shape.value).Some?)
  }

  /**
   * `Medication.create(body)` at time `now`: `None` is a validation or cast
   * error. Defaults: an empty schedule, `startDate` now, refill off with a
   * threshold of 7, active.
   */
  function NewMedication(id: nat, body: MedicationBody, now: Time): (r: Option<Medication>)
    ensures r.Some? <==> Castable(body)
    ensures r.Some? ==> var m := r.value;
      && m.id == id && m.user == body.user.value && m.createdAt == now
      && m.name == Trim(body.name.value)
      && m.startDate == (if body.startDate.Some? then body.startDate.value else now)
      && m.isActive == (if body.isActive.Some? then body.isActive.value else true)
      && m.refillReminder == CastRefill(body.refillReminder)
      && m.dosage.amount == DecimalValue(body.dosage.value.amount.value).value
      && UnitName(m.dosage.unit) == body.dosage.value.unit.value
      && FrequencyName(m.frequency) == body.frequency.value
      && m.endDate == body.endDate && m.notes == body.notes
      && (body.schedule.None? ==> m.schedule == [])
      && (body.schedule.Some? ==> Some(m.schedule) == CastSchedule(body.schedule.value))
      && (body.shape.None? ==> m.shape.None?)
      && (body.shape.Some? ==> m.shape.Some? && ShapeName(m.shape.value) == body.shape.value)
  {
    if !Castable(body) then None
    else
      var d := body.dosage.value;
      Some(Medication(
        id,
        body.user.value,
        Trim(body.name.value),
        Dosage(DecimalValue(d.amount.value).value, ParseUnit(d.unit.value).value),
        ParseFrequency(body.frequency.value).value,
        if body.schedule.Some? then CastSchedule(body.schedule.value).value else [],
        if body.startDate.Some? then body.startDate.value else now,
        body.endDate,
        if body.shape.Some? then ParseShape(body.shape.value) else None,
        CastRefill(body.refillReminder),
        if body.isActive.Some? then body.isActive.value else true,
        body.notes,
        now))
  }

  /** `Medication.findById`: the first medication with the id. */
  function FindMedication(meds: seq<Medication>, id: nat): (r: Option<Medication>)
    ensures r.Some? ==> r.value in meds && r.value.id == id
    ensures r.None? ==> forall i :: 0 <= i < |meds| ==> meds[i].id != id
  {
    if meds == [] then None
    else if meds[0].id == id then Some(meds[0])
    else FindMedication(meds[1..], id)
  }

  /** The position of the medication `id`: the first one carrying that id. */
  function MedicationIndex(meds: seq<Medication>, id: nat): (r: Option<nat>)
    ensures r.Some? ==> r.value < |meds| && meds[r.value].id == id
    ensures r.Some? ==> forall j :: 0 <= j < r.value ==> meds[j].id != id
    ensures r.None? <==> FindMedication(meds, id).None?
    ensures r.Some? ==> FindMedication(meds, id) == Some(meds[r.value])
  {
    if meds == [] then None
    else if meds[0].id == id then Some(0)
    else match MedicationIndex(meds[1..], id)
      case None => None
      case Some(k) => Some(k + 1)
  }

  /** `Medication.findOne({ _id: id, user: caller })` finds it. */
  predicate OwnsMedication(meds: seq<Medication>, id: nat, caller: nat)
  {
    FindMedication(meds, id).Some? && FindMedication(meds, id).value.user == caller
  }
}
