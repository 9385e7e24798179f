/** The doctor's patient search (src/components/doctor/PatientSearch.tsx):
    the guarded search by name, ABHA id or phone, the recent patients of the
    doctor's latest encounters, and which sections the page shows. */
module PatientSearch {
  import opened Wrappers
  import opened Text
  import opened Records
  import opened Remote
  import opened Dedup
  import opened AppRoutes

  /** The shortest term that is searched for. */
  const MinTermLength := 2

  /** The results the search asks for at most (`.limit(10)`). */
  const SearchLimit := 10

  /** The one `ilike` clause on a column: the term anywhere in it. */
  function Clause(column: string, term: string): string {
    column + ".ilike.%" + term + "%"
  }

  /** The argument of `.or(...)`: the term on name, ABHA id and phone. */
  function OrFilter(term: string): string {
    Clause("name", term) + "," + Clause("abha_id", term) + "," + Clause("phone", term)
  }

  /** For a term without commas the filter falls apart into exactly the
      three clauses, on name, ABHA id and phone in that order. */
  lemma OrFilterClauses(term: string)
    requires ',' !in term
    ensures Split(OrFilter(term), ',') == [Clause("name", term), Clause("abha_id", term), Clause("phone", term)]
  {
    var a, b, c := Clause("name", term), Clause("abha_id", term), Clause("phone", term);
    assert ',' !in a && ',' !in b && ',' !in c;
    assert OrFilter(term) == a + [','] + (b + [','] + c);
    SplitAtSep(a, b + [','] + c, ',');
    SplitAtSep(b, c, ',');
    SplitWithoutSep(c, ',');
  }

  /** A column's clause holds as many commas as the term. */
  lemma ClauseCommas(column: string, term: string)
    requires ',' !in column
    ensures Count(Clause(column, term), ',') == Count(term, ',')
  {
    var head := column + ".ilike.%";
    assert ',' !in head;
    assert ',' !in "%";
    CountPositive(head, ',');
    CountPositive("%", ',');
    CountConcat(head, term, ',');
    CountConcat(head + term, "%", ',');
  }

  /** The term is pasted in unescaped: each comma it holds is one more
      clause boundary for the database, so the filter no longer has three
      clauses. */
  lemma CommaInTermAddsClauses(term: string)
    ensures |Split(OrFilter(term), ',')| == 3 + 3 * Count(term, ',')
    ensures ',' in term ==> |Split(OrFilter(term), ',')| > 3
  {
    ClauseCommas("name", term);
    ClauseCommas("abha_id", term);
    ClauseCommas("phone", term);
    SplitJoinCount(Clause("name", term), Clause("abha_id", term), Clause("phone", term));
    CountPositive(term, ',');
  }

  /** Three strings joined by commas split into as many pieces as they
      hold commas, plus three. */
  lemma SplitJoinCount(a: string, b: string, c: string)
    ensures |Split(a + "," + b + "," + c, ',')| == Count(a, ',') + Count(b, ',') + Count(c, ',') + 3
  {
    assert Count(",", ',') == 1;
    CountConcat(a, ",", ',');
    CountConcat(a + ",", b, ',');
    CountConcat(a + "," + b, ",", ',');
    CountConcat(a + "," + b + ",", c, ',');
    SplitCount(a + "," + b + "," + c, ',');
  }

  /** An encounter row of the recent-patient query with its joined patient. */
  datatype RecentRow = RecentRow(patientId: string, encounterDate: string, patients: Option<Patient>)

  /** `enc.patients` of each row. */
  function PatientsOf(rows: seq<RecentRow>): (r: seq<Option<Patient>>)
    ensures |r| == |rows| && forall i :: 0 <= i < |rows| ==> r[i] == rows[i].patients
  {
    seq(|rows|, i requires 0 <= i < |rows| => rows[i].patients)
  }

  /** `uniquePatients`: none for null data. */
  function RecentOf(data: Option<seq<RecentRow>>): seq<Patient> {
    match data
    case None => []
    case Some(rows) => UniquePatients(PatientsOf(rows))
  }

  /** The recent patients drop rows without a patient, hold each id once,
      keep its first row and keep the rows' order. */
  lemma RecentOfSpec(rows: seq<RecentRow>)
    ensures DistinctPatientIds(RecentOf(Some(rows)))
    ensures forall p :: p in RecentOf(Some(rows)) <==>
      exists j :: 0 <= j < |rows| && Kept(PatientsOf(rows), j) && rows[j].patients == Some(p)
    ensures forall j :: 0 <= j < |rows| && rows[j].patients.Some? ==>
      exists p :: p in RecentOf(Some(rows)) && p.id == rows[j].patients.value.id
  {
    UniquePatientsSpec(PatientsOf(rows));
    forall j | 0 <= j < |rows| && rows[j].patients.Some?
      ensures exists p :: p in RecentOf(Some(rows)) && p.id == rows[j].patients.value.id
    {
      EveryIdRepresented(PatientsOf(rows), j);
    }
  }

  /** The results section: absent for an empty term, otherwise a spinner,
      the patient cards, or "No patients found". */
  datatype ResultsView = Searching | Cards(patients: seq<Patient>) | NoMatches

  function ResultsSection(term: string, loading: bool, patients: seq<Patient>): (r: Option<ResultsView>)
    ensures r.None? <==> term == ""
    ensures r.Some? && loading ==> r.value == Searching
    ensures r.Some? && !loading && |patients| > 0 ==> r.value == Cards(patients)
    ensures r.Some? && !loading && patients == [] ==> r.value == NoMatches
  {
    if term == "" then None
    else if loading then Some(Searching)
    else if |patients| > 0 then Some(Cards(patients))
    else Some(NoMatches)
  }

  /** "No recent patients" with its button to add one. */
  predicate ShowsEmptyState(term: string, recentPatients: seq<Patient>) {
    term == "" && recentPatients == []
  }

  /** The empty state and the results section never show together, and
      with an empty term one of the empty state and the recent list shows. */
  lemma SectionsExclusive(term: string, loading: bool, patients: seq<Patient>, recentPatients: seq<Patient>)
    ensures ShowsEmptyState(term, recentPatients) ==> ResultsSection(term, loading, patients).None?
    ensures term == "" ==> (ShowsEmptyState(term, recentPatients) <==> |recentPatients| == 0)
  {
  }

  /** A card opens the patient's own page, which doctors and
      administrators may open. */
  lemma CardOpensPatientPage(p: Patient)
    requires p.id != "" && '/' !in p.id
    ensures Resolve("/patients/" + p.id) == Render(PatientDetailPage, true, OnlyRoles(["doctor", "admin"]))
  {
    ResolvePatientDetail(p.id);
  }

  /** "Add New Patient" goes to `/patients/new`, which the router serves
      with the patient's page for the id `new`. */
  lemma AddNewPatientOpensPatientPage()
    ensures Resolve("/patients/" + "new") == Render(PatientDetailPage, true, OnlyRoles(["doctor", "admin"]))
  {
    var id := "new";
    assert id != "" && '/' !in id;
    ResolvePatientDetail(id);
  }

  class Search {
    var searchTerm: string
    var patients: seq<Patient>
    var loading: bool
    var recentPatients: seq<Patient>
    /** The `.or(...)` filters sent so far, oldest first. */
    var queries: seq<string>

    constructor ()
      ensures searchTerm == "" && patients == [] && !loading && recentPatients == [] && queries == []
    {
      searchTerm := "";
      patients := [];
      loading := false;
      recentPatients := [];
      queries := [];
    }

    method SetSearchTerm(term: string)
      modifies this
      ensures searchTerm == term
      ensures patients == old(patients) && loading == old(loading) && recentPatients == old(recentPatients)
      ensures queries == old(queries)
    {
      searchTerm := term;
    }

    /** `searchPatients` for the current term, given how the query ends. A
        term shorter than two characters clears the results and sends
        nothing. Otherwise the filter is sent; an answer without error
        replaces the results with its rows (none for null data), anything
        else leaves them, and `loading` ends false. */
    method SearchPatients(reply: Reply<seq<Patient>>)
      modifies this
      ensures searchTerm == old(searchTerm) && recentPatients == old(recentPatients)
      ensures |searchTerm| < MinTermLength ==>
        patients == [] && loading == old(loading) && queries == old(queries)
      ensures |searchTerm| >= MinTermLength ==> !loading && queries == old(queries) + [OrFilter(searchTerm)]
      ensures |searchTerm| >= MinTermLength && Succeeded(reply) ==> patients == reply.data.GetOr([])
      ensures |searchTerm| >= MinTermLength && !Succeeded(reply) ==> patients == old(patients)
    {
      if |searchTerm| < MinTermLength {
        patients := [];
        return;
      }
      loading := true;
      queries := queries + [OrFilter(searchTerm)];
      if reply.Reply? && !reply.error {
        patients := reply.data.GetOr([]);
      }
      loading := false;
    }

    /** `loadRecentPatients`, given how the encounter query ends: an answer
        without error sets the recent patients, anything else leaves them. */
    method LoadRecentPatients(reply: Reply<seq<RecentRow>>)
      modifies this
      ensures searchTerm == old(searchTerm) && patients == old(patients) && loading == old(loading)
      ensures queries == old(queries)
      ensures Succeeded(reply) ==> recentPatients == RecentOf(reply.data)
      ensures !Succeeded(reply) ==> recentPatients == old(recentPatients)
    {
      if reply.Reply? && !reply.error {
        recentPatients := RecentOf(reply.data);
      }
    }
  }
}
