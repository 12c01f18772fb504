/**
 * The two read-only provider endpoints: a patient's active medications and a
 * patient's adherence statistics. Neither checks that the provider has been
 * granted access to the patient; any provider may name any patient id.
 */
module ProviderRoutes {
  import opened Common
  import opened MedicationModel
  import opened ReminderModel
  import opened ReminderRoutes
  import MedicationRoutes

  /** `{ user: patientId, isActive: true }`. */
  predicate ActiveOf(patientId: nat, m: Medication)
  {
    m.user == patientId && m.isActive
  }

  function ActiveFilter(patientId: nat): Medication -> bool
  {
    m => ActiveOf(patientId, m)
  }

  /** `GET /api/providers/patients/:patientId/medications`: the active ones, newest first. */
  function PatientMedications(meds: seq<Medication>, patientId: nat): (out: seq<Medication>)
    ensures forall i, j :: 0 <= i < j < |out| ==> out[i].createdAt >= out[j].createdAt
    ensures forall m :: multiset(out)[m] == if ActiveOf(patientId, m) then multiset(meds)[m] else 0
  {
    var p := ActiveFilter(patientId);
    FilterSelects(meds, p);
    SortByDesc(Filter(meds, p), MedicationRoutes.CreatedKey)
  }

  /** A provider sees the same medications as the patient listing their own with `isActive=true`. */
  lemma ProviderSeesActiveListing(meds: seq<Medication>, patientId: nat)
    ensures multiset(PatientMedications(meds, patientId))
      == multiset(MedicationRoutes.ListMedications(meds, patientId, MedicationRoutes.MedicationQuery(Some("true"), None, None)))
  {
    var q := MedicationRoutes.MedicationQuery(Some("true"), None, None);
    forall m
      ensures multiset(PatientMedications(meds, patientId))[m]
        == multiset(MedicationRoutes.ListMedications(meds, patientId, q))[m]
    {
      assert ActiveOf(patientId, m) <==> MedicationRoutes.MedicationMatches(q, patientId, m);
    }
  }

  /** The adherence reply: the statistics plus the period the query named. */
  datatype AdherenceReport = AdherenceReport(stats: Stats, startDate: Option<Time>, endDate: Option<Time>)

  /**
   * `GET /api/providers/patients/:patientId/adherence`: the patient's
   * reminders, within the period only when both bounds are given, counted
   * per status; the rate is the taken share in hundredths of a percent,
   * rounded to the nearest, and 0 when nothing matches.
   */
  function PatientAdherence(rs: seq<Reminder>, patientId: nat, startDate: Option<Time>, endDate: Option<Time>)
    : (rep: AdherenceReport)
    ensures rep.startDate == startDate && rep.endDate == endDate
    ensures forall r ::
      (multiset(StatsSelection(rs, patientId, startDate, endDate))[r]
        == if r.user == patientId && (startDate.Some? && endDate.Some? ==> startDate.value <= r.scheduledTime <= endDate.value)
           then multiset(rs)[r] else 0)
    ensures rep.stats.groups == Groups(StatsSelection(rs, patientId, startDate, endDate))
    ensures rep.stats.total == |StatsSelection(rs, patientId, startDate, endDate)|
    ensures TakenCount(rep.stats.groups) == CountStatus(StatsSelection(rs, patientId, startDate, endDate), Taken)
    ensures rep.stats.adherence <= 10000
    ensures rep.stats.total > 0 ==>
      2 * rep.stats.total * rep.stats.adherence <= TakenCount(rep.stats.groups) * 20000 + rep.stats.total
      < 2 * rep.stats.total * rep.stats.adherence + 2 * rep.stats.total
    ensures rep.stats.total == 0 ==> rep.stats.adherence == 0
  {
    AdherenceReport(ReminderStats(rs, patientId, startDate, endDate), startDate, endDate)
  }

  /** Other patients' reminders never enter a patient's adherence figures. */
  lemma AdherenceIgnoresOthers(rs: seq<Reminder>, others: seq<Reminder>, patientId: nat,
                               startDate: Option<Time>, endDate: Option<Time>)
    requires forall k :: 0 <= k < |others| ==> others[k].user != patientId
    ensures PatientAdherence(rs + others, patientId, startDate, endDate) == PatientAdherence(rs, patientId, startDate, endDate)
  {
    var p := StatsFilter(patientId, startDate, endDate);
    FilterAppend(rs, others, p);
    FilterNone(others, p);
    assert StatsSelection(rs + others, patientId, startDate, endDate) == StatsSelection(rs, patientId, startDate, endDate);
  }

  /** Other patients' medications never appear in a patient's list. */
  lemma MedicationsIgnoreOthers(meds: seq<Medication>, others: seq<Medication>, patientId: nat)
    requires forall k :: 0 <= k < |others| ==> others[k].user != patientId
    ensures PatientMedications(meds + others, patientId) == PatientMedications(meds, patientId)
  {
    var p := ActiveFilter(patientId);
    FilterAppend(meds, others, p);
    FilterNone(others, p);
    assert Filter(meds + others, p) == Filter(meds, p);
  }
}
