/** The doctor's dashboard (src/components/dashboard/DoctorDashboard.tsx):
    four counts, the patients of the latest encounters, and the latest
    encounters themselves. */
module DoctorDashboard {
  import opened Wrappers
  import opened Records
  import opened Seqs
  import opened Dedup

  datatype Stats = Stats(totalPatients: nat, todayEncounters: nat, activeProblems: nat, weeklyEncounters: nat)

  const EmptyStats: Stats := Stats(0, 0, 0, 0)

  /** An encounter of the doctor, newest first, with its patient when the
      join found one. */
  datatype Encounter = Encounter(id: string, encounterDate: string, patient: Option<Patient>)

  /** How each awaited query of the load ends: the four `count`s, then the
      doctor's encounters for the recent patients and for the recent
      encounters (all of them, newest first, before `.limit(5)`; `None` for a
      null `data`). A `Rejected` stage is a query that throws. */
  datatype Stages = Stages(
    patients: Settled<Option<nat>>,
    today: Settled<Option<nat>>,
    active: Settled<Option<nat>>,
    weekly: Settled<Option<nat>>,
    patientEncounters: Settled<Option<seq<Encounter>>>,
    encounters: Settled<Option<seq<Encounter>>>)

  /** Each count, or 0 when the count is null. */
  function StatsOf(patients: Option<nat>, today: Option<nat>, active: Option<nat>, weekly: Option<nat>): (r: Stats)
    ensures patients.Some? ==> r.totalPatients == patients.value
    ensures patients.None? ==> r.totalPatients == 0
    ensures today.Some? ==> r.todayEncounters == today.value
    ensures today.None? ==> r.todayEncounters == 0
    ensures active.Some? ==> r.activeProblems == active.value
    ensures active.None? ==> r.activeProblems == 0
    ensures weekly.Some? ==> r.weeklyEncounters == weekly.value
    ensures weekly.None? ==> r.weeklyEncounters == 0
  {
    Stats(OrZero(patients), OrZero(today), OrZero(active), OrZero(weekly))
  }

  /** `enc.patients` of each encounter. */
  function PatientsOf(rows: seq<Encounter>): (r: seq<Option<Patient>>)
    ensures |r| == |rows| && forall i :: 0 <= i < |rows| ==> r[i] == rows[i].patient
  {
    seq(|rows|, i requires 0 <= i < |rows| => rows[i].patient)
  }

  /** `uniquePatients` over the five latest encounters; none when the data
      are null. */
  function RecentPatients(rows: Option<seq<Encounter>>): seq<Patient> {
    match rows
    case None => []
    case Some(all) => UniquePatients(PatientsOf(Limit(all, 5)))
  }

  /** The recent patients carry no id twice, keep each id's first
      occurrence, skip encounters without a patient, keep encounter order,
      and number at most five. */
  lemma RecentPatientsSpec(rows: Option<seq<Encounter>>)
    ensures DistinctPatientIds(RecentPatients(rows))
    ensures |RecentPatients(rows)| <= 5
    ensures rows.Some? ==> IsSubsequence(RecentPatients(rows), Present(PatientsOf(Limit(rows.value, 5)), 0))
    ensures rows.Some? ==> forall p :: p in RecentPatients(rows) <==>
      exists j :: 0 <= j < |Limit(rows.value, 5)| && Kept(PatientsOf(Limit(rows.value, 5)), j) &&
        Limit(rows.value, 5)[j].patient == Some(p)
  {
    if rows.Some? {
      var s := PatientsOf(Limit(rows.value, 5));
      UniquePatientsSpec(s);
    }
  }

  class Dashboard {
    var stats: Stats
    var recentPatients: seq<Patient>
    var recentEncounters: seq<Encounter>
    var loading: bool

    constructor ()
      ensures stats == EmptyStats && recentPatients == [] && recentEncounters == [] && loading
    {
      stats := EmptyStats;
      recentPatients := [];
      recentEncounters := [];
      loading := true;
    }

    /** `loadDashboardData` for the signed-in user. Without a user nothing
        happens. Otherwise the panels are filled in turn, each once every
        query before it has answered; a query that throws leaves that panel
        and the later ones as they were. `loading` then ends false. */
    method Load(user: Option<User>, s: Stages)
      modifies this
      ensures user.None? ==> (stats == old(stats) && recentPatients == old(recentPatients) &&
        recentEncounters == old(recentEncounters) && loading == old(loading))
      ensures user.Some? ==> !loading
      ensures user.Some? ==> var countsOk := s.patients.Resolved? && s.today.Resolved? && s.active.Resolved? && s.weekly.Resolved?;
        (countsOk ==> stats == StatsOf(s.patients.value, s.today.value, s.active.value, s.weekly.value)) &&
        (!countsOk ==> stats == old(stats)) &&
        (countsOk && s.patientEncounters.Resolved? ==> recentPatients == RecentPatients(s.patientEncounters.value)) &&
        (!(countsOk && s.patientEncounters.Resolved?) ==> recentPatients == old(recentPatients)) &&
        (countsOk && s.patientEncounters.Resolved? && s.encounters.Resolved? ==>
          recentEncounters == Limit(s.encounters.value.GetOr([]), 5)) &&
        (!(countsOk && s.patientEncounters.Resolved? && s.encounters.Resolved?) ==>
          recentEncounters == old(recentEncounters))
    {
      if user.None? {
        return;
      }
      loading := true;
      if s.patients.Resolved? && s.today.Resolved? && s.active.Resolved? && s.weekly.Resolved? {
        stats := StatsOf(s.patients.value, s.today.value, s.active.value, s.weekly.value);
        if s.patientEncounters.Resolved? {
          recentPatients := RecentPatients(s.patientEncounters.value);
          if s.encounters.Resolved? {
            recentEncounters := Limit(s.encounters.value.GetOr([]), 5);
          }
        }
      }
      loading := false;
    }
  }
}
