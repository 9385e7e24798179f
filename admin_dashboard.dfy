/** The hospital administrator's dashboard
    (src/components/dashboard/AdminDashboard.tsx): four counts, patients per
    department, and the five commonest active diseases, with demo figures
    when loading fails. */
module AdminDashboard {
  import opened Wrappers
  import opened Text
  import opened Records
  import opened Grouping

  datatype Stats = Stats(totalPatients: nat, totalDoctors: nat, todayEncounters: nat, activeProblems: nat)

  const EmptyStats: Stats := Stats(0, 0, 0, 0)

  /** A doctor of the hospital with the number of encounters joined to them
      (`None` when the joined list is missing). */
  datatype DoctorRow = DoctorRow(department: Option<string>, encounters: Option<nat>)

  /** An active problem of the hospital. */
  datatype ProblemRow = ProblemRow(namasteName: Option<string>, icdName: Option<string>)

  /** How each awaited query of the load ends: the four `count`s (which may
      be null), the doctors and the problems (whose `data` may be null). A
      `Rejected` stage is a query that throws. */
  datatype Stages = Stages(
    patients: Settled<Option<nat>>,
    doctors: Settled<Option<nat>>,
    today: Settled<Option<nat>>,
    active: Settled<Option<nat>>,
    doctorRows: Settled<Option<seq<DoctorRow>>>,
    problems: Settled<Option<seq<ProblemRow>>>)

  predicate AnyRejected(s: Stages) {
    s.patients.Rejected? || s.doctors.Rejected? || s.today.Rejected? || s.active.Rejected?
    || s.doctorRows.Rejected? || s.problems.Rejected?
  }

  // ----- the demo figures shown when the load fails -----

  const DemoStats: Stats := Stats(156, 12, 23, 89)

  const DemoDepartments: seq<KeyCount> := [
    KeyCount("Cardiology", 45),
    KeyCount("Internal Medicine", 38),
    KeyCount("General Medicine", 32),
    KeyCount("Panchakarma", 25),
    KeyCount("Surgery", 16)
  ]

  const DemoDiseases: seq<KeyCount> := [
    KeyCount("Diabetes", 28),
    KeyCount("Hypertension", 22),
    KeyCount("Arthritis", 18),
    KeyCount("Heart Disease", 15),
    KeyCount("Fever", 12)
  ]

  /** The demo disease list looks like a real one: sorted, five entries,
      labels within the truncation width. */
  lemma DemoDiseasesAreRanked()
    ensures NonIncreasing(DemoDiseases) && |DemoDiseases| == 5 && DistinctKeys(DemoDiseases)
    ensures forall x :: x in DemoDiseases ==> |x.key| <= 20
  {
  }

  // ----- the folds -----

  /** Each count, or 0 when the count is null. */
  function StatsOf(patients: Option<nat>, doctors: Option<nat>, today: Option<nat>, active: Option<nat>): (r: Stats)
    ensures patients.Some? ==> r.totalPatients == patients.value
    ensures patients.None? ==> r.totalPatients == 0
    ensures doctors.Some? ==> r.totalDoctors == doctors.value
    ensures doctors.None? ==> r.totalDoctors == 0
    ensures today.Some? ==> r.todayEncounters == today.value
    ensures today.None? ==> r.todayEncounters == 0
    ensures active.Some? ==> r.activeProblems == active.value
    ensures active.None? ==> r.activeProblems == 0
  {
    Stats(OrZero(patients), OrZero(doctors), OrZero(today), OrZero(active))
  }

  /** `doctor.department || 'General'`, weighted by `doctor.encounters?.length || 0`. */
  function DepartmentItems(rows: seq<DoctorRow>): (r: seq<Item>)
    ensures |r| == |rows|
    ensures forall i :: 0 <= i < |rows| ==>
      r[i] == (OrDefault(rows[i].department, "General"), OrZero(rows[i].encounters))
  {
    seq(|rows|, i requires 0 <= i < |rows| => (OrDefault(rows[i].department, "General"), OrZero(rows[i].encounters)))
  }

  /** `problem.namaste_name || problem.icd_name || 'Unknown'`. */
  function DiseaseName(p: ProblemRow): (k: string)
    ensures k != ""
    ensures p.namasteName.Some? && p.namasteName.value != "" ==> k == p.namasteName.value
    ensures (p.namasteName.None? || p.namasteName.value == "") && p.icdName.Some? && p.icdName.value != "" ==>
      k == p.icdName.value
    ensures (p.namasteName.None? || p.namasteName.value == "") && (p.icdName.None? || p.icdName.value == "") ==>
      k == "Unknown"
  {
    OrDefault(p.namasteName, OrDefault(p.icdName, "Unknown"))
  }

  /** Each problem counts once under its disease name. */
  function ProblemItems(rows: seq<ProblemRow>): (r: seq<Item>)
    ensures |r| == |rows| && forall i :: 0 <= i < |rows| ==> r[i] == (DiseaseName(rows[i]), 1)
  {
    seq(|rows|, i requires 0 <= i < |rows| => (DiseaseName(rows[i]), 1))
  }

  /** `disease.substring(0, 20)` on every entry. */
  function Truncated(acc: seq<KeyCount>): (r: seq<KeyCount>)
    ensures |r| == |acc| && forall j :: 0 <= j < |acc| ==> r[j] == KeyCount(Prefix(acc[j].key, 20), acc[j].count)
  {
    seq(|acc|, j requires 0 <= j < |acc| => KeyCount(Prefix(acc[j].key, 20), acc[j].count))
  }

  /** The disease chart from the grouped entries: labels cut to 20
      characters, then the five largest. */
  function TopDiseases(grouped: seq<KeyCount>): seq<KeyCount> {
    TopN(Truncated(grouped), 5)
  }

  /** An entry of the truncated grouping is a disease name cut to 20
      characters, with the number of problems under that name. */
  lemma TruncatedEntry(rows: seq<ProblemRow>, x: KeyCount)
    requires x in Truncated(Tally(ProblemItems(rows)))
    ensures |x.key| <= 20
    ensures exists i :: (0 <= i < |rows| && x.key == Prefix(DiseaseName(rows[i]), 20) &&
      x.count == SumFor(ProblemItems(rows), DiseaseName(rows[i])))
  {
    var items := ProblemItems(rows);
    var acc := Tally(items);
    TallyEntries(items);
    var j :| 0 <= j < |Truncated(acc)| && Truncated(acc)[j] == x;
    var e := acc[j];
    assert e in acc;
    var i :| 0 <= i < |items| && ItemKeys(items)[i] == e.key;
    assert DiseaseName(rows[i]) == e.key;
  }

  /** The disease chart is sorted, has five entries or one per disease name
      when there are fewer, no name left out outranks a kept one, and every
      entry is a disease name cut to 20 characters, with the number of active
      problems under that name. */
  lemma TopDiseasesSpec(rows: seq<ProblemRow>)
    ensures NonIncreasing(TopDiseases(Tally(ProblemItems(rows))))
    ensures |TopDiseases(Tally(ProblemItems(rows)))| == Min(5, |Tally(ProblemItems(rows))|)
    ensures forall x, y :: (x in TopDiseases(Tally(ProblemItems(rows))) &&
      y in multiset(Truncated(Tally(ProblemItems(rows)))) - multiset(TopDiseases(Tally(ProblemItems(rows))))) ==>
      x.count >= y.count
    ensures forall x :: x in TopDiseases(Tally(ProblemItems(rows))) ==>
      |x.key| <= 20 &&
      (exists i :: 0 <= i < |rows| && x.key == Prefix(DiseaseName(rows[i]), 20) &&
        x.count == SumFor(ProblemItems(rows), DiseaseName(rows[i])))
  {
    var truncated := Truncated(Tally(ProblemItems(rows)));
    TopNSpec(truncated, 5);
    TopNMembers(truncated, 5);
    forall x | x in TopN(truncated, 5)
      ensures |x.key| <= 20
      ensures exists i :: (0 <= i < |rows| && x.key == Prefix(DiseaseName(rows[i]), 20) &&
        x.count == SumFor(ProblemItems(rows), DiseaseName(rows[i])))
    {
      TruncatedEntry(rows, x);
    }
  }

  /** The department chart: one entry per department, each with the
      encounters of its doctors, adding up to all their encounters. */
  lemma DepartmentSpec(rows: seq<DoctorRow>)
    ensures DistinctKeys(Tally(DepartmentItems(rows)))
    ensures forall x :: x in Tally(DepartmentItems(rows)) ==>
      (exists i :: 0 <= i < |rows| && OrDefault(rows[i].department, "General") == x.key) &&
      x.count == SumFor(DepartmentItems(rows), x.key)
    ensures Total(Tally(DepartmentItems(rows))) == Weight(DepartmentItems(rows))
  {
    var items := DepartmentItems(rows);
    TallyEntries(items);
    TallySpec(items);
    forall x | x in Tally(items) ensures exists i :: 0 <= i < |rows| && OrDefault(rows[i].department, "General") == x.key {
      var i :| 0 <= i < |items| && ItemKeys(items)[i] == x.key;
      assert items[i].0 == x.key;
    }
  }

  class Dashboard {
    var stats: Stats
    var departmentData: seq<KeyCount>
    var diseaseData: seq<KeyCount>
    var loading: bool

    constructor ()
      ensures stats == EmptyStats && departmentData == [] && diseaseData == [] && loading
    {
      stats := EmptyStats;
      departmentData := [];
      diseaseData := [];
      loading := true;
    }

    /** `loadDashboardData` for the signed-in user. Without a hospital
        nothing happens, not even the end of `loading`. Otherwise, when any
        query throws, all three panels show the demo figures; when none
        does, the panels show the counts, the department totals and the top
        diseases. `loading` then ends false. */
    method Load(user: Option<User>, s: Stages)
      modifies this
      ensures user.None? || OrDefault(user.value.hospitalId, "") == "" ==>
        stats == old(stats) && departmentData == old(departmentData) && diseaseData == old(diseaseData) &&
        loading == old(loading)
      ensures user.Some? && OrDefault(user.value.hospitalId, "") != "" ==> !loading
      ensures user.Some? && OrDefault(user.value.hospitalId, "") != "" && AnyRejected(s) ==>
        stats == DemoStats && departmentData == DemoDepartments && diseaseData == DemoDiseases
      ensures user.Some? && OrDefault(user.value.hospitalId, "") != "" && !AnyRejected(s) ==>
        stats == StatsOf(s.patients.value, s.doctors.value, s.today.value, s.active.value) &&
        departmentData == Tally(DepartmentItems(s.doctorRows.value.GetOr([]))) &&
        diseaseData == TopDiseases(Tally(ProblemItems(s.problems.value.GetOr([]))))
    {
      if user.None? || OrDefault(user.value.hospitalId, "") == "" {
        return;
      }
      loading := true;
      var failed := false;
      if s.patients.Rejected? || s.doctors.Rejected? || s.today.Rejected? || s.active.Rejected? {
        failed := true;
      } else {
        stats := StatsOf(s.patients.value, s.doctors.value, s.today.value, s.active.value);
        if s.doctorRows.Rejected? {
          failed := true;
        } else {
          departmentData := GroupSum(DepartmentItems(s.doctorRows.value.GetOr([])));
          if s.problems.Rejected? {
            failed := true;
          } else {
            var grouped := GroupSum(ProblemItems(s.problems.value.GetOr([])));
            diseaseData := TopDiseases(grouped);
          }
        }
      }
      if failed {
        stats := DemoStats;
        departmentData := DemoDepartments;
        diseaseData := DemoDiseases;
      }
      loading := false;
    }
  }
}
