/** The add-diagnosis dialog (src/components/doctor/AddDiseaseModal.tsx):
    the disease search, the choice of a disease and its treatment approach,
    and the two-step commit, an authoritative database insert followed by a
    best-effort copy to the terminology registry. */
module AddDiseaseModal {
  import opened Wrappers
  import opened Records
  import opened Remote
  import opened Terminology

  /** The editable part of the diagnosis. */
  datatype FormData = FormData(severity: Severity, treatmentApproach: string, notes: string)

  const InitialForm: FormData := FormData(Moderate, "allopathic", "")

  const DefaultApproach: string := "allopathic"

  const SaveFailedMessage: string := "Failed to save diagnosis. Please try again."

  /** The calls the dialog makes to the world outside it, in order: a
      registry search, the database insert (with whether it succeeded), the
      registry copy (with its answer), the parent's callback, and an alert. */
  datatype Effect =
    | Search(term: string)
    | Insert(row: DiagnosisData, ok: bool)
    | Mirror(data: DiagnosisData, response: SaveResponse)
    | DiseaseAdded
    | Alert(message: string)

  /** `availableTreatmentApproaches`: the selected disease's own list, or
      only the default when nothing is selected or it lists none. */
  function AvailableApproaches(selected: Option<DiseaseSearchResult>): (r: seq<string>)
    ensures selected.None? || selected.value.treatmentApproach.None? ==> r == [DefaultApproach]
    ensures selected.Some? && selected.value.treatmentApproach.Some? ==> r == selected.value.treatmentApproach.value
  {
    match selected
    case None => [DefaultApproach]
    case Some(d) => d.treatmentApproach.GetOr([DefaultApproach])
  }

  /** `disease.treatment_approach?.[0] || 'allopathic'`: the first listed
      approach, unless the list is missing or empty or its first entry is the
      empty string. */
  function FirstApproach(d: DiseaseSearchResult): (r: string)
    ensures r != ""
    ensures d.treatmentApproach.Some? && |d.treatmentApproach.value| > 0 && d.treatmentApproach.value[0] != "" ==>
      r == d.treatmentApproach.value[0]
    ensures d.treatmentApproach.None? || |d.treatmentApproach.value| == 0 || d.treatmentApproach.value[0] == "" ==>
      r == DefaultApproach
  {
    if d.treatmentApproach.Some? && |d.treatmentApproach.value| > 0 && d.treatmentApproach.value[0] != "" then
      d.treatmentApproach.value[0]
    else
      DefaultApproach
  }

  /** The approach chosen on selection is one the dialog offers, unless the
      disease's list is empty or starts with the empty string; an empty list
      offers nothing while the form still says `allopathic`. */
  lemma SelectedApproachIsOffered(d: DiseaseSearchResult)
    ensures d.treatmentApproach.None? || (d.treatmentApproach.value != [] && d.treatmentApproach.value[0] != "") ==>
      FirstApproach(d) in AvailableApproaches(Some(d))
    ensures d.treatmentApproach == Some([]) ==> AvailableApproaches(Some(d)) == [] && FirstApproach(d) == DefaultApproach
  {
    if d.treatmentApproach.Some? && d.treatmentApproach.value != [] && d.treatmentApproach.value[0] != "" {
      assert AvailableApproaches(Some(d))[0] == FirstApproach(d);
    }
  }

  /** Every bundled record, once selected, sets the approach to
      `allopathic`, which it also offers. */
  lemma CorpusSelectionIsAllopathic(i: nat)
    requires i < |Corpus|
    ensures FirstApproach(Corpus[i]) == DefaultApproach
    ensures DefaultApproach in AvailableApproaches(Some(Corpus[i]))
  {
    CorpusApproachesStartAllopathic();
  }

  /** The row inserted into the problem list: the patient, the doctor and
      their hospital, the codes and names of the chosen disease, and the
      form's severity, approach and notes. */
  function InsertRow(patientId: string, user: User, d: DiseaseSearchResult, form: FormData): (r: DiagnosisData)
    ensures r.patientId == patientId && r.doctorId == user.id && r.hospitalId == user.hospitalId
    ensures r.namasteCode == d.namasteCode && r.namasteName == d.namasteName
    ensures r.icdCode == d.icdCode && r.icdName == d.icdName && r.diseaseNameHindi == d.diseaseNameHindi
    ensures r.severity == form.severity && r.treatmentApproach == form.treatmentApproach
    ensures r.notes == Some(form.notes)
  {
    DiagnosisData(patientId, user.id, user.hospitalId, d.namasteCode, d.namasteName, d.icdCode, d.icdName,
                  d.diseaseNameHindi, form.severity, form.treatmentApproach, Some(form.notes))
  }

  /** The registry copy of an inserted row: the same fields, with the
      hospital defaulted to the empty string (`user.hospital_id || ''`). */
  function MirrorOf(row: DiagnosisData): (r: DiagnosisData)
    ensures r.hospitalId.Some?
    ensures r.hospitalId.value == OrDefault(row.hospitalId, "")
    ensures r.(hospitalId := row.hospitalId) == row
  {
    row.(hospitalId := Some(OrDefault(row.hospitalId, "")))
  }

  /** The copy keeps a hospital the row names, and sends `''` otherwise. */
  lemma MirrorHospital(row: DiagnosisData)
    ensures row.hospitalId.Some? && row.hospitalId.value != "" ==> MirrorOf(row) == row
    ensures row.hospitalId.None? || row.hospitalId.value == "" ==> MirrorOf(row).hospitalId == Some("")
  {
  }

  /** The dialog's effects are well ordered: every registry copy comes right
      after a successful insert of the same diagnosis, and the parent is told
      of a new diagnosis only right after such a copy. */
  ghost predicate WellOrdered(calls: seq<Effect>) {
    (forall i :: 0 <= i < |calls| && calls[i].Mirror? ==>
      i > 0 && calls[i - 1].Insert? && calls[i - 1].ok && calls[i].data == MirrorOf(calls[i - 1].row)) &&
    (forall i :: 0 <= i < |calls| && calls[i] == DiseaseAdded ==> i > 0 && calls[i - 1].Mirror?)
  }

  /** What one submission appends to the effects once the guard has passed. */
  function SubmitEffects(row: DiagnosisData, insert: Reply<()>, mirror: Fetch<SaveResponse>): (r: seq<Effect>)
    ensures |r| > 0 && r[0] == Insert(row, Succeeded(insert))
    ensures Succeeded(insert) ==> r == [Insert(row, true),
                                        Mirror(MirrorOf(row), SaveDiagnosis(MirrorOf(row), mirror)),
                                        DiseaseAdded]
    ensures !Succeeded(insert) ==> r == [Insert(row, false), Alert(SaveFailedMessage)]
  {
    if Succeeded(insert) then
      var copy := MirrorOf(row);
      [Insert(row, true), Mirror(copy, SaveDiagnosis(copy, mirror)), DiseaseAdded]
    else
      [Insert(row, false), Alert(SaveFailedMessage)]
  }

  /** A submission keeps the effects well ordered. */
  lemma {:induction false} SubmitKeepsOrder(calls: seq<Effect>, row: DiagnosisData, insert: Reply<()>, mirror: Fetch<SaveResponse>)
    requires WellOrdered(calls)
    ensures WellOrdered(calls + SubmitEffects(row, insert, mirror))
  {
    var added := SubmitEffects(row, insert, mirror);
    var all := calls + added;
    forall i | 0 <= i < |all| && all[i].Mirror?
      ensures i > 0 && all[i - 1].Insert? && all[i - 1].ok && all[i].data == MirrorOf(all[i - 1].row)
    {
      if i >= |calls| {
        assert all[i] == added[i - |calls|];
        assert i == |calls| + 1 && Succeeded(insert);
        assert all[i - 1] == added[0];
      } else {
        assert all[i] == calls[i];
        assert all[i - 1] == calls[i - 1];
      }
    }
    forall i | 0 <= i < |all| && all[i] == DiseaseAdded
      ensures i > 0 && all[i - 1].Mirror?
    {
      if i >= |calls| {
        assert all[i] == added[i - |calls|];
        assert i == |calls| + 2 && Succeeded(insert);
        assert all[i - 1] == added[1];
      } else {
        assert all[i] == calls[i];
        assert all[i - 1] == calls[i - 1];
      }
    }
  }

  /** A registry search keeps the effects well ordered. */
  lemma {:induction false} SearchKeepsOrder(calls: seq<Effect>, term: string)
    requires WellOrdered(calls)
    ensures WellOrdered(calls + [Search(term)])
  {
    var all := calls + [Search(term)];
    forall i | 0 <= i < |all| && all[i].Mirror?
      ensures i > 0 && all[i - 1].Insert? && all[i - 1].ok && all[i].data == MirrorOf(all[i - 1].row)
    {
      assert i < |calls| && all[i] == calls[i] && all[i - 1] == calls[i - 1];
    }
    forall i | 0 <= i < |all| && all[i] == DiseaseAdded
      ensures i > 0 && all[i - 1].Mirror?
    {
      assert i < |calls| && all[i] == calls[i] && all[i - 1] == calls[i - 1];
    }
  }

  class Modal {
    /** The patient the dialog was opened for. */
    const patientId: string
    var searchTerm: string
    var searchResults: seq<DiseaseSearchResult>
    var selectedDisease: Option<DiseaseSearchResult>
    var loading: bool
    var saving: bool
    var form: FormData
    /** Every effect so far, oldest first. */
    var calls: seq<Effect>

    /** Between handlers nothing is being saved, and the effects so far are
        well ordered. */
    ghost predicate Valid()
      reads this
    {
      !saving && WellOrdered(calls)
    }

    constructor (patientId: string)
      ensures Valid()
      ensures this.patientId == patientId
      ensures searchTerm == "" && searchResults == [] && selectedDisease == None
      ensures !loading && !saving && form == InitialForm && calls == []
    {
      this.patientId := patientId;
      searchTerm := "";
      searchResults := [];
      selectedDisease := None;
      loading := false;
      saving := false;
      form := InitialForm;
      calls := [];
    }

    /** The search box's `onChange`. */
    method SetSearchTerm(term: string)
      modifies this`searchTerm
      ensures searchTerm == term
    {
      searchTerm := term;
    }

    /** The search effect for the current term. A term shorter than two
        characters (not trimmed) clears the results without a search and
        without touching `loading`. Otherwise the registry is searched; the
        results become its answer, or stay as they were if the call
        rejects; `loading` ends false. */
    method RunSearch(outcome: Settled<Fetch<seq<DiseaseSearchResult>>>)
      requires Valid()
      modifies this`searchResults, this`loading, this`calls
      ensures Valid()
      ensures |searchTerm| < 2 ==> searchResults == [] && loading == old(loading) && calls == old(calls)
      ensures |searchTerm| >= 2 ==> !loading && calls == old(calls) + [Search(searchTerm)]
      ensures |searchTerm| >= 2 && outcome.Resolved? ==> searchResults == SearchDiseases(searchTerm, outcome.value)
      ensures |searchTerm| >= 2 && outcome.Rejected? ==> searchResults == old(searchResults)
    {
      if |searchTerm| < 2 {
        searchResults := [];
        return;
      }
      loading := true;
      SearchKeepsOrder(calls, searchTerm);
      calls := calls + [Search(searchTerm)];
      if outcome.Resolved? {
        searchResults := SearchDiseases(searchTerm, outcome.value);
      }
      loading := false;
    }

    /** `handleDiseaseSelect`: selects the disease and sets the approach to
        its first, leaving severity and notes. */
    method HandleDiseaseSelect(d: DiseaseSearchResult)
      modifies this`selectedDisease, this`form
      ensures selectedDisease == Some(d)
      ensures form == old(form).(treatmentApproach := FirstApproach(d))
    {
      selectedDisease := Some(d);
      form := form.(treatmentApproach := FirstApproach(d));
    }

    method SetSeverity(s: Severity)
      modifies this`form
      ensures form == old(form).(severity := s)
    {
      form := form.(severity := s);
    }

    method SetTreatmentApproach(a: string)
      modifies this`form
      ensures form == old(form).(treatmentApproach := a)
    {
      form := form.(treatmentApproach := a);
    }

    method SetNotes(n: string)
      modifies this`form
      ensures form == old(form).(notes := n)
    {
      form := form.(notes := n);
    }

    /** `handleSubmit`, given the signed-in user, how the insert ends and how
        the registry request ends. Without a selected disease or a user
        nothing happens. Otherwise the row is inserted; if the insert fails
        or rejects, an alert is raised and nothing else is called; if it
        succeeds, the copy is sent to the registry and then the parent is
        told, whatever the registry answers. `saving` ends false. */
    method HandleSubmit(user: Option<User>, insert: Reply<()>, mirror: Fetch<SaveResponse>)
      requires Valid()
      modifies this`saving, this`calls
      ensures Valid()
      ensures selectedDisease.None? || user.None? ==> calls == old(calls)
      ensures selectedDisease.Some? && user.Some? ==>
        calls == old(calls) + SubmitEffects(InsertRow(patientId, user.value, selectedDisease.value, form), insert, mirror)
    {
      if selectedDisease.None? || user.None? {
        return;
      }
      saving := true;
      var row := InsertRow(patientId, user.value, selectedDisease.value, form);
      SubmitKeepsOrder(calls, row, insert, mirror);
      ghost var before := calls;
      var ok := Succeeded(insert);
      calls := calls + [Insert(row, ok)];
      if ok {
        var copy := MirrorOf(row);
        var response := SaveDiagnosis(copy, mirror);
        calls := calls + [Mirror(copy, response)];
        calls := calls + [DiseaseAdded];
      } else {
        calls := calls + [Alert(SaveFailedMessage)];
      }
      assert calls == before + SubmitEffects(row, insert, mirror);
      saving := false;
    }
  }
}
