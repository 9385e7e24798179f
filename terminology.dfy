/** The terminology client (src/lib/terminology-api.ts): dual-coded
    NAMASTE / ICD-11 disease records, the bundled fallback corpus with its
    case-insensitive filter, and the remote-first search and save calls. */
module Terminology {
  import opened Wrappers
  import opened Text
  import opened Remote
  import opened Records
  import opened Seqs

  /** Built-in registry address and key, used when the environment gives none. */
  const DefaultApiHost: string := "https://your-ngrok-url.ngrok-free.app"
  const DefaultApiKey: string := "22911A05P5"

  /** The configured host: the environment value when it is set and non-empty,
      otherwise the built-in default, so a missing setting never leaves the
      client without an address. */
  function ApiHost(env: Option<string>): (r: string)
    ensures r != ""
    ensures env.Some? && env.value != "" ==> r == env.value
    ensures env.None? || env.value == "" ==> r == DefaultApiHost
  {
    OrDefault(env, DefaultApiHost)
  }

  /** The configured key, with the same fallback as the host. */
  function ApiKey(env: Option<string>): (r: string)
    ensures r != ""
    ensures env.Some? && env.value != "" ==> r == env.value
    ensures env.None? || env.value == "" ==> r == DefaultApiKey
  {
    OrDefault(env, DefaultApiKey)
  }

  /** One dual-coded disease record, as the registry and the corpus give it. */
  datatype DiseaseSearchResult = DiseaseSearchResult(
    id: string,
    namasteCode: string,
    namasteName: string,
    icdCode: string,
    icdName: string,
    diseaseNameHindi: string,
    category: string,
    description: Option<string>,
    synonyms: Option<seq<string>>,
    treatmentApproach: Option<seq<string>>)

  /** The diagnosis sent to the registry. */
  datatype DiagnosisData = DiagnosisData(
    patientId: string,
    doctorId: string,
    hospitalId: Option<string>,
    namasteCode: string,
    namasteName: string,
    icdCode: string,
    icdName: string,
    diseaseNameHindi: string,
    severity: Severity,
    treatmentApproach: string,
    notes: Option<string>)

  /** The registry's answer to a saved diagnosis. */
  datatype SaveResponse = SaveResponse(success: bool, message: string)

  const OfflineSaveMessage: string := "Diagnosis saved successfully (offline mode)"

  function CorpusEntry(id: string, code: string, name: string, icd: string, icdName: string,
                       hindi: string, category: string, description: string,
                       synonyms: seq<string>, approaches: seq<string>): DiseaseSearchResult
  {
    DiseaseSearchResult(id, code, name, icd, icdName, hindi, category,
                        Some(description), Some(synonyms), Some(approaches))
  }

  /** The eight bundled records searched when the registry cannot answer. */
  const Corpus: seq<DiseaseSearchResult> := [
    CorpusEntry("mock-1", "NAM001", "Madhumeha (Diabetes Mellitus)", "E11.9",
                "Type 2 diabetes mellitus without complications", "मधुमेह", "Endocrine",
                "A metabolic disorder characterized by high blood sugar levels",
                ["Diabetes", "High Blood Sugar", "Prameha"], ["allopathic", "ayurvedic", "mixed"]),
    CorpusEntry("mock-2", "NAM002", "Jwara (Fever)", "R50.9",
                "Fever unspecified", "ज्वर", "Symptoms",
                "Elevation of body temperature above normal",
                ["Fever", "Pyrexia", "Taap"], ["allopathic", "ayurvedic", "unani"]),
    CorpusEntry("mock-3", "NAM003", "Amavata (Rheumatoid Arthritis)", "M06.9",
                "Rheumatoid arthritis unspecified", "आमवात", "Musculoskeletal",
                "Chronic inflammatory disorder affecting joints",
                ["Rheumatoid Arthritis", "Joint Pain", "Sandhi Vaat"], ["allopathic", "ayurvedic"]),
    CorpusEntry("mock-4", "NAM004", "Hridroga (Heart Disease)", "I25.9",
                "Chronic ischemic heart disease unspecified", "हृदय रोग", "Cardiovascular",
                "Disease affecting the heart and blood vessels",
                ["Heart Disease", "Cardiac Disease", "Dil Ki Bimari"], ["allopathic", "ayurvedic", "mixed"]),
    CorpusEntry("mock-5", "NAM005", "Raktachapa (Hypertension)", "I10",
                "Essential hypertension", "उच्च रक्तचाप", "Cardiovascular",
                "High blood pressure condition",
                ["High Blood Pressure", "Hypertension", "High BP"], ["allopathic", "ayurvedic"]),
    CorpusEntry("mock-6", "NAM006", "Kasa (Cough)", "R05",
                "Cough", "खांसी", "Respiratory",
                "Sudden expulsion of air from lungs",
                ["Cough", "Khasi", "Tussis"], ["allopathic", "ayurvedic", "unani"]),
    CorpusEntry("mock-7", "NAM007", "Shwasa (Asthma)", "J45.9",
                "Asthma unspecified", "दमा", "Respiratory",
                "Chronic respiratory condition with airway inflammation",
                ["Asthma", "Breathing Problems", "Saans Ki Bimari"], ["allopathic", "ayurvedic"]),
    CorpusEntry("mock-8", "NAM008", "Arsha (Hemorrhoids)", "K64.9",
                "Hemorrhoids unspecified", "बवासीर", "Gastrointestinal",
                "Swollen blood vessels in rectum and anus",
                ["Piles", "Hemorrhoids", "Bawaseer"], ["allopathic", "ayurvedic"])
  ]

  /** Some synonym contains the term, ignoring case; a record without a
      synonym list matches none. */
  predicate SynonymMatches(d: DiseaseSearchResult, term: string) {
    d.synonyms.Some? &&
    exists i :: 0 <= i < |d.synonyms.value| && Contains(Lower(d.synonyms.value[i]), Lower(term))
  }

  /** The fallback match rule: either name contains the term ignoring case,
      the Hindi name contains it exactly, or a synonym contains it ignoring case. */
  predicate Matches(d: DiseaseSearchResult, term: string) {
    || Contains(Lower(d.namasteName), Lower(term))
    || Contains(Lower(d.icdName), Lower(term))
    || Contains(d.diseaseNameHindi, term)
    || SynonymMatches(d, term)
  }

  /** `entries.filter(...)` with the match rule. */
  function Filter(entries: seq<DiseaseSearchResult>, term: string): (r: seq<DiseaseSearchResult>)
    ensures |r| <= |entries|
  {
    if entries == [] then []
    else (if Matches(entries[0], term) then [entries[0]] else []) + Filter(entries[1..], term)
  }

  /** `getFallbackSearchResults(term)`. */
  function FallbackSearchResults(term: string): seq<DiseaseSearchResult> {
    Filter(Corpus, term)
  }

  /** `searchDiseases(term)` given how the registry request ends: the parsed
      remote list on an OK response, the fallback filter on every other
      outcome. The result is a value on every path: the call never rejects. */
  function SearchDiseases(term: string, remote: Fetch<seq<DiseaseSearchResult>>): (r: seq<DiseaseSearchResult>)
    ensures Delivered(remote) ==> r == remote.body.value
    ensures !Delivered(remote) ==> r == FallbackSearchResults(term)
  {
    RemoteOr(remote, FallbackSearchResults(term))
  }

  /** `saveDiagnosis(data)` given how the registry request ends: the remote
      answer on an OK response, otherwise a soft success in offline mode. */
  function SaveDiagnosis(data: DiagnosisData, remote: Fetch<SaveResponse>): (r: SaveResponse)
    ensures Delivered(remote) ==> r == remote.body.value
    ensures !Delivered(remote) ==> r.success && r.message == OfflineSaveMessage
  {
    RemoteOr(remote, SaveResponse(true, OfflineSaveMessage))
  }

  // ----- properties of the fallback filter -----

  /** A record is returned exactly when it is in the input and matches. */
  lemma {:induction false} FilterMembership(entries: seq<DiseaseSearchResult>, term: string, d: DiseaseSearchResult)
    ensures d in Filter(entries, term) <==> d in entries && Matches(d, term)
  {
    if entries != [] {
      FilterMembership(entries[1..], term, d);
      assert entries == [entries[0]] + entries[1..];
    }
  }

  /** The result keeps the input order: it is a subsequence of the input,
      with no ranking. */
  lemma {:induction false} FilterIsSubsequence(entries: seq<DiseaseSearchResult>, term: string)
    ensures IsSubsequence(Filter(entries, term), entries)
  {
    if entries != [] {
      FilterIsSubsequence(entries[1..], term);
      assert entries == [entries[0]] + entries[1..];
      if Matches(entries[0], term) {
        ConsBoth(entries[0], Filter(entries[1..], term), entries[1..]);
      } else {
        assert Filter(entries, term) == Filter(entries[1..], term);
        ConsRight(entries[0], Filter(entries[1..], term), entries[1..]);
      }
    }
  }

  /** No two records share an id. */
  predicate DistinctIds(entries: seq<DiseaseSearchResult>) {
    forall i, j :: 0 <= i < j < |entries| ==> entries[i].id != entries[j].id
  }

  /** Filtering a list without repeated ids repeats none. */
  lemma {:induction false} FilterKeepsDistinct(entries: seq<DiseaseSearchResult>, term: string)
    requires DistinctIds(entries)
    ensures DistinctIds(Filter(entries, term))
  {
    if entries != [] {
      var rest := Filter(entries[1..], term);
      FilterKeepsDistinct(entries[1..], term);
      if Matches(entries[0], term) {
        forall j | 0 <= j < |rest| ensures rest[j].id != entries[0].id {
          FilterMembership(entries[1..], term, rest[j]);
          var k :| 0 <= k < |entries[1..]| && entries[1..][k] == rest[j];
          assert entries[k + 1] == rest[j];
        }
        var r := [entries[0]] + rest;
        forall i, j | 0 <= i < j < |r| ensures r[i].id != r[j].id {
          if i > 0 {
            assert r[i] == rest[i - 1] && r[j] == rest[j - 1];
          } else {
            assert r[j] == rest[j - 1];
          }
        }
      }
    }
  }

  /** When every record matches, everything is returned in order. */
  lemma {:induction false} FilterAllMatch(entries: seq<DiseaseSearchResult>, term: string)
    requires forall i :: 0 <= i < |entries| ==> Matches(entries[i], term)
    ensures Filter(entries, term) == entries
  {
    if entries != [] {
      FilterAllMatch(entries[1..], term);
      assert entries == [entries[0]] + entries[1..];
    }
  }

  /** The bundled records have distinct ids. */
  lemma CorpusIdsDistinct()
    ensures |Corpus| == 8 && DistinctIds(Corpus)
  {
  }

  /** The fallback results are a duplicate-free subsequence of the corpus. */
  lemma FallbackResultsOrdered(term: string)
    ensures IsSubsequence(FallbackSearchResults(term), Corpus)
    ensures DistinctIds(FallbackSearchResults(term))
    ensures forall d :: d in FallbackSearchResults(term) <==> d in Corpus && Matches(d, term)
  {
    FilterIsSubsequence(Corpus, term);
    CorpusIdsDistinct();
    FilterKeepsDistinct(Corpus, term);
    forall d ensures d in FallbackSearchResults(term) <==> d in Corpus && Matches(d, term) {
      FilterMembership(Corpus, term, d);
    }
  }

  /** Every string contains "", so the empty term returns the whole corpus. */
  lemma EmptyTermReturnsCorpus()
    ensures FallbackSearchResults("") == Corpus
  {
    forall i | 0 <= i < |Corpus| ensures Matches(Corpus[i], "") {
      ContainsTrivial(Lower(Corpus[i].namasteName));
    }
    FilterAllMatch(Corpus, "");
  }

  /** A record matches its own NAMASTE name, so each corpus record is found
      by searching for that name. */
  lemma FoundByOwnName(i: nat)
    requires i < |Corpus|
    ensures Corpus[i] in FallbackSearchResults(Corpus[i].namasteName)
  {
    ContainsTrivial(Lower(Corpus[i].namasteName));
    FilterMembership(Corpus, Corpus[i].namasteName, Corpus[i]);
  }

  /** Searching offline for "diabetes" yields the Madhumeha record first. */
  lemma DiabetesFindsMadhumeha()
    ensures |FallbackSearchResults("diabetes")| > 0
    ensures FallbackSearchResults("diabetes")[0].id == "mock-1"
    ensures FallbackSearchResults("diabetes")[0].namasteCode == "NAM001"
    ensures FallbackSearchResults("diabetes")[0].namasteName == "Madhumeha (Diabetes Mellitus)"
  {
    var name := Corpus[0].namasteName;
    assert Lower(name)[11..19] == "diabetes";
    assert Lower("diabetes") == "diabetes";
    ContainsAt(Lower(name), "diabetes", 11);
    assert Matches(Corpus[0], "diabetes");
  }

  /** Each corpus record lists at least one approach, 'allopathic' first. */
  lemma CorpusApproachesStartAllopathic()
    ensures forall i :: 0 <= i < |Corpus| ==>
      Corpus[i].treatmentApproach.Some? && |Corpus[i].treatmentApproach.value| > 0
      && Corpus[i].treatmentApproach.value[0] == "allopathic"
  {
  }

  /** An offline save reports success with the offline message, whatever
      went wrong with the request. */
  lemma OfflineSaveIsSoftSuccess(data: DiagnosisData, status: int)
    requires !IsOkStatus(status)
    ensures SaveDiagnosis(data, Response(status, None)) == SaveResponse(true, OfflineSaveMessage)
    ensures SaveDiagnosis(data, NetworkError) == SaveResponse(true, OfflineSaveMessage)
    ensures SaveDiagnosis(data, TimedOut) == SaveResponse(true, OfflineSaveMessage)
  {
  }
}
