/** The morbidity analytics view (src/components/government/MorbidityAnalytics.tsx):
    the filtered problem-list query, the normalisation of its rows, and the
    state, treatment-approach and disease groupings behind the charts. */
module Morbidity {
  import opened Wrappers
  import opened Text
  import opened Remote
  import opened Grouping

  /** A problem-list row as the query returns it, with its patient's place. */
  datatype RawRow = RawRow(
    patientState: string,
    patientCity: string,
    namasteCode: Option<string>,
    namasteName: Option<string>,
    icdCode: Option<string>,
    treatmentApproach: Option<string>,
    severity: Option<string>,
    diagnosisDate: string)

  /** A row of the charts' data. */
  datatype MorbidityRow = MorbidityRow(
    state: string,
    city: string,
    diseaseCategory: string,
    namasteCode: string,
    namasteName: string,
    icdCode: string,
    treatmentApproach: string,
    severity: string,
    diagnosisDate: string,
    count: nat)

  /** `item.namaste_code?.startsWith('NAM') ? 'NAMASTE' : 'ICD'`. */
  function Category(code: Option<string>): (r: string)
    ensures r == "NAMASTE" <==> code.Some? && StartsWith(code.value, "NAM")
    ensures r != "NAMASTE" ==> r == "ICD"
  {
    if code.Some? && StartsWith(code.value, "NAM") then "NAMASTE" else "ICD"
  }

  /** The `processedData` map over one raw row. */
  function Normalise(raw: RawRow): (r: MorbidityRow)
    ensures r.state == raw.patientState && r.city == raw.patientCity
    ensures r.count == 1
    ensures r.diseaseCategory == "NAMASTE" <==> raw.namasteCode.Some? && StartsWith(raw.namasteCode.value, "NAM")
    ensures r.diseaseCategory == "NAMASTE" || r.diseaseCategory == "ICD"
    ensures r.namasteCode == OrDefault(raw.namasteCode, "") && r.namasteName == OrDefault(raw.namasteName, "")
    ensures r.icdCode == OrDefault(raw.icdCode, "")
    ensures r.treatmentApproach == OrDefault(raw.treatmentApproach, "allopathic")
    ensures r.severity == OrDefault(raw.severity, "moderate")
    ensures r.treatmentApproach != "" && r.severity != ""
    ensures r.diagnosisDate == raw.diagnosisDate
  {
    MorbidityRow(raw.patientState, raw.patientCity, Category(raw.namasteCode),
                 OrDefault(raw.namasteCode, ""), OrDefault(raw.namasteName, ""), OrDefault(raw.icdCode, ""),
                 OrDefault(raw.treatmentApproach, "allopathic"), OrDefault(raw.severity, "moderate"),
                 raw.diagnosisDate, 1)
  }

  function NormaliseAll(rows: seq<RawRow>): (r: seq<MorbidityRow>)
    ensures |r| == |rows| && forall i :: 0 <= i < |rows| ==> r[i] == Normalise(rows[i])
  {
    seq(|rows|, i requires 0 <= i < |rows| => Normalise(rows[i]))
  }

  // ----- filters and the query -----

  datatype Filters = Filters(
    state: string,
    city: string,
    start: string,
    end: string,
    diseaseCategory: string,
    treatmentApproach: string)

  /** The state picker also clears the city. */
  function SetState(f: Filters, s: string): Filters {
    f.(state := s, city := "")
  }

  function SetCity(f: Filters, c: string): Filters {
    f.(city := c)
  }

  function SetStart(f: Filters, d: string): Filters {
    f.(start := d)
  }

  function SetEnd(f: Filters, d: string): Filters {
    f.(end := d)
  }

  function SetTreatmentApproach(f: Filters, a: string): Filters {
    f.(treatmentApproach := a)
  }

  /** A condition of the query builder, on a column. */
  datatype Condition = Gte(column: string, value: string) | Lte(column: string, value: string) | Eq(column: string, value: string)

  /** The conditions the query is built with: the date range always, then an
      equality for each of state, city and approach that is not empty. The
      disease category is never applied. */
  function BuildQuery(f: Filters): (r: seq<Condition>)
    ensures |r| >= 2 && r[0] == Gte("diagnosis_date", f.start) && r[1] == Lte("diagnosis_date", f.end)
    ensures Eq("patients.state", f.state) in r <==> f.state != ""
    ensures Eq("patients.city", f.city) in r <==> f.city != ""
    ensures Eq("treatment_approach", f.treatmentApproach) in r <==> f.treatmentApproach != ""
    ensures |r| == 2 + (if f.state != "" then 1 else 0) + (if f.city != "" then 1 else 0)
                     + (if f.treatmentApproach != "" then 1 else 0)
    ensures forall c :: c in r ==> c.column != "disease_category" && (c.Eq? ==> c.value != "")
  {
    [Gte("diagnosis_date", f.start), Lte("diagnosis_date", f.end)]
    + (if f.state != "" then [Eq("patients.state", f.state)] else [])
    + (if f.city != "" then [Eq("patients.city", f.city)] else [])
    + (if f.treatmentApproach != "" then [Eq("treatment_approach", f.treatmentApproach)] else [])
  }

  /** Picking a state drops any city condition, and changes no other filter. */
  lemma SetStateDropsCity(f: Filters, s: string)
    ensures forall c :: c in BuildQuery(SetState(f, s)) ==> c.column != "patients.city"
    ensures SetState(f, s).(state := f.state, city := f.city) == f
  {
  }

  /** Each other picker changes its own filter only, and the query follows:
      the city and approach conditions appear iff picked non-empty, and the
      date bounds are the picked dates. */
  lemma SettersChangeOneFilter(f: Filters, v: string)
    ensures SetCity(f, v).city == v && SetCity(f, v).(city := f.city) == f
    ensures SetStart(f, v).start == v && SetStart(f, v).(start := f.start) == f
    ensures SetEnd(f, v).end == v && SetEnd(f, v).(end := f.end) == f
    ensures SetTreatmentApproach(f, v).treatmentApproach == v &&
      SetTreatmentApproach(f, v).(treatmentApproach := f.treatmentApproach) == f
    ensures Eq("patients.city", v) in BuildQuery(SetCity(f, v)) <==> v != ""
    ensures Eq("treatment_approach", v) in BuildQuery(SetTreatmentApproach(f, v)) <==> v != ""
    ensures BuildQuery(SetStart(f, v))[0] == Gte("diagnosis_date", v)
    ensures BuildQuery(SetEnd(f, v))[1] == Lte("diagnosis_date", v)
  {
  }

  /** Changing the category changes nothing in the query. */
  lemma CategoryIsIgnored(f: Filters, category: string)
    ensures BuildQuery(f.(diseaseCategory := category)) == BuildQuery(f)
  {
  }

  // ----- the groupings -----

  function StateItems(data: seq<MorbidityRow>): (r: seq<Item>)
    ensures |r| == |data| && forall i :: 0 <= i < |data| ==> r[i] == (data[i].state, data[i].count)
  {
    seq(|data|, i requires 0 <= i < |data| => (data[i].state, data[i].count))
  }

  function ApproachItems(data: seq<MorbidityRow>): (r: seq<Item>)
    ensures |r| == |data| && forall i :: 0 <= i < |data| ==> r[i] == (data[i].treatmentApproach, data[i].count)
  {
    seq(|data|, i requires 0 <= i < |data| => (data[i].treatmentApproach, data[i].count))
  }

  /** `item.namaste_name || item.icd_code`. */
  function DiseaseKey(row: MorbidityRow): (k: string)
    ensures row.namasteName != "" ==> k == row.namasteName
    ensures row.namasteName == "" ==> k == row.icdCode
  {
    if row.namasteName != "" then row.namasteName else row.icdCode
  }

  function DiseaseItems(data: seq<MorbidityRow>): (r: seq<Item>)
    ensures |r| == |data| && forall i :: 0 <= i < |data| ==> r[i] == (DiseaseKey(data[i]), data[i].count)
  {
    seq(|data|, i requires 0 <= i < |data| => (DiseaseKey(data[i]), data[i].count))
  }

  /** `stateWiseData`: the ten states with the most cases. */
  method StateWiseData(data: seq<MorbidityRow>) returns (r: seq<KeyCount>)
    ensures r == TopN(Tally(StateItems(data)), 10)
  {
    var grouped := GroupSum(StateItems(data));
    r := TopN(grouped, 10);
  }

  /** The chart label: the approach with its first letter in upper case. */
  function Labelled(acc: seq<KeyCount>): (r: seq<KeyCount>)
    ensures |r| == |acc| && forall j :: 0 <= j < |acc| ==> r[j] == KeyCount(UpperFirst(acc[j].key), acc[j].count)
  {
    seq(|acc|, j requires 0 <= j < |acc| => KeyCount(UpperFirst(acc[j].key), acc[j].count))
  }

  /** `treatmentApproachData`: every approach, labelled, untruncated. */
  method TreatmentApproachData(data: seq<MorbidityRow>) returns (r: seq<KeyCount>)
    ensures r == Labelled(Tally(ApproachItems(data)))
  {
    var grouped := GroupSum(ApproachItems(data));
    r := Labelled(grouped);
  }

  /** `diseasePrevalenceData`: the eight diseases with the most cases. */
  method DiseasePrevalenceData(data: seq<MorbidityRow>) returns (r: seq<KeyCount>)
    ensures r == TopN(Tally(DiseaseItems(data)), 8)
  {
    var grouped := GroupSum(DiseaseItems(data));
    r := TopN(grouped, 8);
  }

  /** The state chart: sorted by non-increasing cases, at most ten states,
      each state once with the total count of its rows, and no state left
      out has more cases than one shown. */
  lemma StateWiseSpec(data: seq<MorbidityRow>)
    ensures NonIncreasing(TopN(Tally(StateItems(data)), 10))
    ensures |TopN(Tally(StateItems(data)), 10)| <= 10
    ensures DistinctKeys(TopN(Tally(StateItems(data)), 10))
    ensures forall x :: x in TopN(Tally(StateItems(data)), 10) ==>
      (exists i :: 0 <= i < |data| && data[i].state == x.key) && x.count == SumFor(StateItems(data), x.key)
    ensures forall x, y :: (x in TopN(Tally(StateItems(data)), 10) && y in Tally(StateItems(data)) &&
      y !in TopN(Tally(StateItems(data)), 10)) ==> x.count >= y.count
  {
    var items := StateItems(data);
    RankedTally(items, 10);
    forall x | x in TopN(Tally(items), 10) ensures exists i :: 0 <= i < |data| && data[i].state == x.key {
      var i :| 0 <= i < |items| && ItemKeys(items)[i] == x.key;
      assert data[i].state == x.key;
    }
  }

  /** The disease chart: the same guarantees with at most eight entries,
      keyed by the NAMASTE name or, when it is empty, the ICD code. */
  lemma DiseasePrevalenceSpec(data: seq<MorbidityRow>)
    ensures NonIncreasing(TopN(Tally(DiseaseItems(data)), 8))
    ensures |TopN(Tally(DiseaseItems(data)), 8)| <= 8
    ensures DistinctKeys(TopN(Tally(DiseaseItems(data)), 8))
    ensures forall x :: x in TopN(Tally(DiseaseItems(data)), 8) ==>
      (exists i :: 0 <= i < |data| && DiseaseKey(data[i]) == x.key) && x.count == SumFor(DiseaseItems(data), x.key)
    ensures forall x, y :: (x in TopN(Tally(DiseaseItems(data)), 8) && y in Tally(DiseaseItems(data)) &&
      y !in TopN(Tally(DiseaseItems(data)), 8)) ==> x.count >= y.count
  {
    var items := DiseaseItems(data);
    RankedTally(items, 8);
    forall x | x in TopN(Tally(items), 8) ensures exists i :: 0 <= i < |data| && DiseaseKey(data[i]) == x.key {
      var i :| 0 <= i < |items| && ItemKeys(items)[i] == x.key;
      assert DiseaseKey(data[i]) == x.key;
    }
  }

  /** The approach chart has one entry per distinct approach, labelled,
      with that approach's total, and its totals add up to all the cases. */
  lemma TreatmentApproachSpec(data: seq<MorbidityRow>)
    ensures |Labelled(Tally(ApproachItems(data)))| == |set i | 0 <= i < |data| :: data[i].treatmentApproach|
    ensures forall j :: 0 <= j < |Tally(ApproachItems(data))| ==>
      Labelled(Tally(ApproachItems(data)))[j] ==
        KeyCount(UpperFirst(Tally(ApproachItems(data))[j].key),
                 SumFor(ApproachItems(data), Tally(ApproachItems(data))[j].key))
    ensures Total(Labelled(Tally(ApproachItems(data)))) == Weight(ApproachItems(data))
  {
    var items := ApproachItems(data);
    DistinctKeyCount(items);
    assert (set i | 0 <= i < |items| :: items[i].0) == (set i | 0 <= i < |data| :: data[i].treatmentApproach);
    TallySpec(items);
    LabelledTotal(Tally(items));
  }

  lemma {:induction false} LabelledTotal(acc: seq<KeyCount>)
    ensures Total(Labelled(acc)) == Total(acc)
    decreases |acc|
  {
    if acc != [] {
      LabelledTotal(acc[1..]);
      assert Labelled(acc)[1..] == Labelled(acc[1..]);
    }
  }

  /** Each normalised row counts once, so the groupings add up to the number
      of rows. */
  lemma {:induction false} RowsWeighOne(rows: seq<RawRow>)
    ensures Weight(StateItems(NormaliseAll(rows))) == |rows|
    decreases |rows|
  {
    if rows != [] {
      var n := |rows| - 1;
      RowsWeighOne(rows[..n]);
      assert StateItems(NormaliseAll(rows))[..n] == StateItems(NormaliseAll(rows[..n]));
    }
  }

  /** "States Covered": the number of distinct states in the data. */
  function StatesCovered(data: seq<MorbidityRow>): nat {
    |set i | 0 <= i < |data| :: data[i].state|
  }

  /** The states covered are exactly the entries of the state grouping before
      it is cut to ten. */
  lemma StatesCoveredIsGroupCount(data: seq<MorbidityRow>)
    ensures StatesCovered(data) == |Tally(StateItems(data))|
  {
    var items := StateItems(data);
    DistinctKeyCount(items);
    assert (set i | 0 <= i < |items| :: items[i].0) == (set i | 0 <= i < |data| :: data[i].state);
  }

  // ----- the view's state -----

  class View {
    var data: seq<MorbidityRow>
    var loading: bool
    var filters: Filters
    /** The conditions of the last query issued. */
    var lastQuery: seq<Condition>

    constructor (start: string, end: string)
      ensures data == [] && loading && lastQuery == []
      ensures filters == Filters("", "", start, end, "", "")
    {
      data := [];
      loading := true;
      filters := Filters("", "", start, end, "", "");
      lastQuery := [];
    }

    /** A filter control's `onChange`. */
    method SetFilters(f: Filters)
      modifies this`filters
      ensures filters == f
    {
      filters := f;
    }

    /** `loadMorbidityData`, given how the query ends and the demo rows used
        when it fails: the query is built from the current filters; on
        success the data are the normalised rows (none for a null answer); on
        an error or a rejection the demo rows; `loading` ends false. */
    method Load(reply: Reply<seq<RawRow>>, demo: seq<MorbidityRow>)
      modifies this`data, this`loading, this`lastQuery
      ensures lastQuery == BuildQuery(filters)
      ensures Succeeded(reply) ==> data == NormaliseAll(reply.data.GetOr([]))
      ensures !Succeeded(reply) ==> data == demo
      ensures !loading
    {
      loading := true;
      lastQuery := BuildQuery(filters);
      if reply.Reply? && !reply.error {
        data := NormaliseAll(reply.data.GetOr([]));
      } else {
        data := demo;
      }
      loading := false;
    }
  }
}
