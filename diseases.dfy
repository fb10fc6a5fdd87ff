/**
  The keyword disease scorer of the disease-detection service: the knowledge
  base of ten diseases, entity thresholding, the per-source scoring pass that
  accumulates scores and source mentions, previous-diagnosis scoring, the
  ranking into at most ten detections, and the response summary.

  The named-entity recogniser and the clinical classifier are language models:
  their raw outputs are inputs here, and confidences are `real`s.
 */
module Diseases {
  import opened Wrappers
  import opened Text
  import opened Seqs
  import opened Ranking

  // ---------------------------------------------------------------------------
  // Data model

  /** `InputSourceType`. */
  datatype Source = Transcription | ClinicalNotes | PatientSummary | LabResults | PreviousDiagnosis

  function SourceValue(s: Source): string
  {
    match s
    case Transcription => "transcription"
    case ClinicalNotes => "clinical_notes"
    case PatientSummary => "patient_summary"
    case LabResults => "lab_results"
    case PreviousDiagnosis => "previous_diagnosis"
  }

  /** One entry of the knowledge base, keyed by its name. */
  datatype DiseaseInfo = DiseaseInfo(name: string, icd10: string, snomed: string, severity: string,
                                     keywords: seq<string>, relatedSymptoms: seq<string>)

  /** The knowledge base, in its dictionary's insertion order. */
  function DiseaseDatabase(): seq<DiseaseInfo>
  {
    [ DiseaseInfo("pneumonia", "J18.9", "233604007", "high",
                  ["pneumonia", "lung infection", "lower respiratory", "consolidation"],
                  ["cough", "fever", "chest pain", "shortness of breath"]),
      DiseaseInfo("asthma", "J45.9", "195967001", "medium",
                  ["asthma", "wheezing", "reactive airway"],
                  ["shortness of breath", "wheezing", "cough"]),
      DiseaseInfo("copd", "J44.9", "13645005", "high",
                  ["copd", "chronic obstructive", "emphysema"],
                  ["cough", "shortness of breath", "wheezing"]),
      DiseaseInfo("covid-19", "U07.1", "840539006", "high",
                  ["covid", "coronavirus", "sars-cov-2", "positive test"],
                  ["fever", "cough", "fatigue", "loss of taste"]),
      DiseaseInfo("diabetes", "E11.9", "44054006", "high",
                  ["diabetes", "hyperglycemia", "blood sugar", "hba1c"],
                  ["increased thirst", "frequent urination", "fatigue"]),
      DiseaseInfo("hypertension", "I10", "38341003", "high",
                  ["hypertension", "high blood pressure", "elevated bp"],
                  ["headache", "dizziness", "chest pain"]),
      DiseaseInfo("heart failure", "I50.9", "84114007", "high",
                  ["heart failure", "congestive", "cardiomyopathy", "ejection fraction"],
                  ["shortness of breath", "fatigue", "edema", "orthopnea"]),
      DiseaseInfo("myocardial infarction", "I21.9", "22298006", "critical",
                  ["mi", "myocardial infarction", "heart attack", "troponin"],
                  ["chest pain", "radiating pain", "diaphoresis"]),
      DiseaseInfo("stroke", "I63.9", "230690007", "critical",
                  ["stroke", "ischemic", "hemorrhagic", "cva"],
                  ["weakness", "speech difficulty", "facial drooping"]),
      DiseaseInfo("cancer", "C80.1", "363346000", "critical",
                  ["cancer", "malignancy", "tumor", "carcinoma", "metastasis", "oncology"],
                  ["weight loss", "fatigue", "unexplained bleeding", "persistent cough"])
    ]
  }

  /** The knowledge base's keys are distinct. */
  lemma DatabaseNamesDistinct()
    ensures forall i, j :: 0 <= i < j < |DiseaseDatabase()| ==> DiseaseDatabase()[i].name != DiseaseDatabase()[j].name
  {
  }

  // ---------------------------------------------------------------------------
  // Entities

  /** One raw result of the entity recogniser; `start` and `end` may be missing. */
  datatype NerResult = NerResult(word: string, score: real, start: Option<int>, end: Option<int>)

  /** `MedicalEntity`; the recogniser only produces `DISEASE` entities. */
  datatype MedicalEntity = MedicalEntity(text: string, entityType: string, start: int, end: int, confidence: real)

  /** The entity a raw result yields: only results scoring above 0.5 do. */
  function EntityOf(r: NerResult): (e: Option<MedicalEntity>)
    ensures e.Some? <==> r.score > 0.5
    ensures e.Some? ==> e.value.text == r.word && e.value.confidence == r.score && e.value.entityType == "DISEASE"
  {
    if r.score > 0.5 then
      Some(MedicalEntity(r.word, "DISEASE", if r.start.Some? then r.start.value else 0,
                         if r.end.Some? then r.end.value else 0, r.score))
    else None
  }

  /** The entities of the recogniser's results, in order. */
  function Entities(results: seq<NerResult>): seq<MedicalEntity>
  {
    Somes(MapSeq(EntityOf, results))
  }

  /** Every entity kept scores above the threshold and comes from one of the results. */
  lemma EntitiesConfident(results: seq<NerResult>, k: nat)
    requires k < |Entities(results)|
    ensures Entities(results)[k].confidence > 0.5
    ensures exists i :: 0 <= i < |results| && EntityOf(results[i]) == Some(Entities(results)[k])
  {
    var xs := MapSeq(EntityOf, results);
    SomesFrom(xs, k);
    var i :| 0 <= i < |xs| && xs[i] == Some(Somes(xs)[k]);
    assert EntityOf(results[i]) == Some(Entities(results)[k]);
  }

  /** When every result scores above the threshold, one entity is kept per result. */
  lemma EntitiesKeepAll(results: seq<NerResult>)
    requires forall i :: 0 <= i < |results| ==> results[i].score > 0.5
    ensures |Entities(results)| == |results|
    ensures forall i :: 0 <= i < |results| ==> Entities(results)[i].text == results[i].word
  {
    var xs := MapSeq(EntityOf, results);
    var ys := seq(|results|, i requires 0 <= i < |results| => EntityOf(results[i]).value);
    SomesAll(xs, ys);
  }

  /** `MedicalNERModel.extract_entities`, given what the recogniser returns for the text. */
  method ExtractEntities(text: string, results: seq<NerResult>) returns (entities: seq<MedicalEntity>)
    ensures entities == if Strip(text) == "" then [] else Entities(results)
  {
    if |text| == 0 || |Strip(text)| == 0 {
      return [];
    }
    entities := [];
    for i := 0 to |results|
      invariant entities == Somes(MapSeq(EntityOf, results[..i]))
    {
      MapSeqSnoc(EntityOf, results, i);
      SomesSnoc(MapSeq(EntityOf, results[..i]), EntityOf(results[i]));
      var result := results[i];
      if result.score > 0.5 {
        var entity := MedicalEntity(result.word, "DISEASE", if result.start.Some? then result.start.value else 0,
                                    if result.end.Some? then result.end.value else 0, result.score);
        entities := entities + [entity];
      }
    }
    assert results[..|results|] == results;
  }

  /** `{e.text.lower(): e.confidence for e in entities}`: a later entity overrides an earlier one. */
  function ConfidenceMap(entities: seq<MedicalEntity>): (m: map<string, real>)
    ensures forall e :: e in entities ==> Lower(e.text) in m
  {
    if entities == [] then map[]
    else
      var n := |entities| - 1;
      var prev := ConfidenceMap(entities[..n]);
      assert forall e :: e in entities ==> e in entities[..n] || e == entities[n];
      prev[Lower(entities[n].text) := entities[n].confidence]
  }

  /** A key of the map holds the confidence of the last entity with that lower-cased text. */
  lemma {:induction false} ConfidenceMapLast(entities: seq<MedicalEntity>, i: nat)
    requires i < |entities|
    requires forall j :: i < j < |entities| ==> Lower(entities[j].text) != Lower(entities[i].text)
    ensures ConfidenceMap(entities)[Lower(entities[i].text)] == entities[i].confidence
    decreases |entities|
  {
    var n := |entities| - 1;
    if i < n {
      assert entities[i] in entities[..n];
      ConfidenceMapLast(entities[..n], i);
    }
  }

  /** The map has a key only for lower-cased entity texts. */
  lemma {:induction false} ConfidenceMapKeys(entities: seq<MedicalEntity>, k: string)
    requires k in ConfidenceMap(entities)
    ensures exists i :: 0 <= i < |entities| && Lower(entities[i].text) == k
    decreases |entities|
  {
    var n := |entities| - 1;
    if k != Lower(entities[n].text) {
      ConfidenceMapKeys(entities[..n], k);
      var i :| 0 <= i < n && Lower(entities[..n][i].text) == k;
      assert entities[..n][i] == entities[i];
    }
  }

  /** `ClinicalDiseaseClassifier.analyze_clinical_text`: no analysis for a blank text, else the classifier's score. */
  function AnalyzeClinicalText(text: string, classifierScore: real): (r: Option<real>)
    ensures r.None? <==> Strip(text) == ""
  {
    if Strip(text) == "" then None else Some(classifierScore)
  }

  /** The context confidence: the analysis's, or 0.5 without one. */
  function ClinicalConfidence(analysis: Option<real>): real
  {
    if analysis.Some? then analysis.value else 0.5
  }

  // ---------------------------------------------------------------------------
  // Scoring

  /** `disease_scores`, with its keys in insertion order, and `source_mentions`. */
  datatype Tally = Tally(order: seq<string>, scores: map<string, real>, mentions: map<string, seq<Source>>)

  const NoScores := Tally([], map[], map[])

  /** The key order lists every scored disease exactly once. */
  predicate Valid(t: Tally)
  {
    && (forall i, j :: 0 <= i < j < |t.order| ==> t.order[i] != t.order[j])
    && (forall i :: 0 <= i < |t.order| ==> t.order[i] in t.scores)
    && (forall n :: n in t.scores ==> n in t.order)
  }

  /** `disease_scores.get(name, 0)`. */
  function ScoreOf(t: Tally, name: string): real
  {
    if name in t.scores then t.scores[name] else 0.0
  }

  /** `source_mentions.get(name, [])`. */
  function MentionsOf(m: map<string, seq<Source>>, name: string): seq<Source>
  {
    if name in m then m[name] else []
  }

  /** `disease_scores[name] = disease_scores.get(name, 0) + delta`: a new key goes last. */
  function AddScore(t: Tally, name: string, delta: real): (r: Tally)
    ensures r.mentions == t.mentions
    ensures r.scores.Keys == t.scores.Keys + {name}
    ensures ScoreOf(r, name) == ScoreOf(t, name) + delta
    ensures forall n :: n != name ==> ScoreOf(r, n) == ScoreOf(t, n)
  {
    Tally(if name in t.scores then t.order else t.order + [name], t.scores[name := ScoreOf(t, name) + delta], t.mentions)
  }

  /** Adding to a score keeps every key listed once in the key order. */
  lemma AddScoreValid(t: Tally, name: string, delta: real)
    requires Valid(t)
    ensures Valid(AddScore(t, name, delta))
  {
    var r := AddScore(t, name, delta);
    if name !in t.scores {
      assert name !in t.order;
      assert forall i :: 0 <= i < |t.order| ==> r.order[i] == t.order[i];
    }
  }

  /** Create the disease's mention list when missing, then append the source unless it is listed. */
  function Mention(m: map<string, seq<Source>>, name: string, source: Source): (r: map<string, seq<Source>>)
    ensures name in r
  {
    m[name := MentionsOf(m, name) + if source in MentionsOf(m, name) then [] else [source]]
  }

  /** The two statements of the scan that update `source_mentions` compute `Mention`. */
  lemma MentionSteps(m: map<string, seq<Source>>, name: string, source: Source)
    ensures var m1 := if name !in m then m[name := []] else m;
      (if source !in m1[name] then m1[name := m1[name] + [source]] else m1) == Mention(m, name, source)
  {
    var m1 := if name !in m then m[name := []] else m;
    var l := MentionsOf(m, name);
    assert m1[name] == l;
    if source in l {
      assert l + [] == l;
      assert name in m && m[name := l] == m;
    } else {
      assert l + [source] == m1[name] + [source];
    }
  }

  /** Mentioning a source twice is mentioning it once. */
  lemma MentionTwice(m: map<string, seq<Source>>, name: string, source: Source)
    ensures Mention(Mention(m, name, source), name, source) == Mention(m, name, source)
  {
    var r := Mention(m, name, source);
    var l := MentionsOf(r, name);
    assert source in l;
    assert l + [] == l;
    assert r[name := l] == r;
  }

  /** The confidence of a matched term: the entity map's (0.5 when absent) when the map is non-empty, else the context's. */
  function TermConfidence(term: string, confidences: map<string, real>, clinical: real): real
  {
    if confidences != map[] then (if Lower(term) in confidences then confidences[Lower(term)] else 0.5) else clinical
  }

  /** `term.lower() in text_lower`. */
  predicate Occurs(textLower: string, term: string)
  {
    Contains(textLower, Lower(term))
  }

  /** The terms whose lower-cased form occurs in the lower-cased text, in order. */
  function Hits(terms: seq<string>, textLower: string): (r: seq<string>)
    ensures |r| <= |terms|
  {
    Filter(terms, t => Occurs(textLower, t))
  }

  /** Every hit is one of the terms and occurs in the text. */
  lemma HitsSound(terms: seq<string>, textLower: string, k: nat)
    requires k < |Hits(terms, textLower)|
    ensures Hits(terms, textLower)[k] in terms && Occurs(textLower, Hits(terms, textLower)[k])
  {
    FilterSound(terms, t => Occurs(textLower, t), k);
  }

  /** Every term occurring in the text is a hit. */
  lemma HitsComplete(terms: seq<string>, textLower: string, i: nat)
    requires i < |terms| && Occurs(textLower, terms[i])
    ensures terms[i] in Hits(terms, textLower)
  {
    FilterComplete(terms, t => Occurs(textLower, t), i);
  }

  lemma HitsNext(terms: seq<string>, textLower: string, j: nat)
    requires j < |terms|
    ensures Hits(terms[..j + 1], textLower) == Hits(terms[..j], textLower) + if Occurs(textLower, terms[j]) then [terms[j]] else []
  {
    FilterSnoc(terms, t => Occurs(textLower, t), j);
  }

  /** The sum of `w` times each term's confidence. */
  function Weight(terms: seq<string>, w: real, confidences: map<string, real>, clinical: real): real
  {
    SumOf(terms, t => w * TermConfidence(t, confidences, clinical))
  }

  lemma WeightNext(terms: seq<string>, term: string, w: real, confidences: map<string, real>, clinical: real)
    ensures Weight(terms + [term], w, confidences, clinical) == Weight(terms, w, confidences, clinical) + w * TermConfidence(term, confidences, clinical)
  {
    SumOfSnoc(terms, term, t => w * TermConfidence(t, confidences, clinical));
  }

  /** A weight over non-negative confidences is non-negative. */
  lemma WeightNonNegative(terms: seq<string>, w: real, confidences: map<string, real>, clinical: real)
    requires w >= 0.0 && clinical >= 0.0 && forall k :: k in confidences ==> confidences[k] >= 0.0
    ensures Weight(terms, w, confidences, clinical) >= 0.0
  {
    var f := t => w * TermConfidence(t, confidences, clinical);
    forall i | 0 <= i < |terms|
      ensures f(terms[i]) >= 0.0
    {
      assert TermConfidence(terms[i], confidences, clinical) >= 0.0;
    }
    SumOfNonNegative(terms, f);
  }

  /** Symptoms count for a disease only after one of its keywords matched, or with clinical context above 0.6. */
  predicate SymptomsCount(keywordHits: seq<string>, clinical: real)
  {
    keywordHits != [] || clinical > 0.6
  }

  /** `matched_terms` after both scans: the keyword hits, then the symptom hits when symptoms count. */
  function MatchedTerms(info: DiseaseInfo, textLower: string, clinical: real): seq<string>
  {
    var kh := Hits(info.keywords, textLower);
    kh + if SymptomsCount(kh, clinical) then Hits(info.relatedSymptoms, textLower) else []
  }

  /** `disease_score` after both scans: 2.0 per keyword hit and 0.6 per counted symptom hit, times its confidence. */
  function DiseaseScore(info: DiseaseInfo, textLower: string, confidences: map<string, real>, clinical: real): real
  {
    var kh := Hits(info.keywords, textLower);
    Weight(kh, 2.0, confidences, clinical)
      + if SymptomsCount(kh, clinical) then Weight(Hits(info.relatedSymptoms, textLower), 0.6, confidences, clinical) else 0.0
  }

  /** One disease of the scoring pass: nothing unless some term matched. */
  function ScoreDisease(t: Tally, info: DiseaseInfo, textLower: string, source: Source,
                        confidences: map<string, real>, clinical: real): Tally
  {
    if MatchedTerms(info, textLower, clinical) == [] then t
    else AddScore(t.(mentions := Mention(t.mentions, info.name, source)), info.name,
                  DiseaseScore(info, textLower, confidences, clinical))
  }

  /** The scoring pass over the knowledge base, in order. */
  function ScoreAll(t: Tally, db: seq<DiseaseInfo>, textLower: string, source: Source,
                    confidences: map<string, real>, clinical: real): Tally
  {
    if db == [] then t
    else
      var n := |db| - 1;
      ScoreDisease(ScoreAll(t, db[..n], textLower, source, confidences, clinical), db[n], textLower, source, confidences, clinical)
  }

  lemma ScoreAllNext(t: Tally, db: seq<DiseaseInfo>, textLower: string, source: Source,
                     confidences: map<string, real>, clinical: real, i: nat)
    requires i < |db|
    ensures ScoreAll(t, db[..i + 1], textLower, source, confidences, clinical)
         == ScoreDisease(ScoreAll(t, db[..i], textLower, source, confidences, clinical), db[i], textLower, source, confidences, clinical)
  {
    assert db[..i + 1][..i] == db[..i];
  }

  /** The body of both scans for a term found in the text: weigh it, record it, mention the source. */
  method MatchTerm(term: string, weight: real, name: string, source: Source, confidences: map<string, real>, clinical: real,
                   diseaseScore: real, matchedTerms: seq<string>, mentions: map<string, seq<Source>>)
    returns (diseaseScore': real, matchedTerms': seq<string>, mentions': map<string, seq<Source>>)
    ensures diseaseScore' == diseaseScore + weight * TermConfidence(term, confidences, clinical)
    ensures matchedTerms' == matchedTerms + [term]
    ensures mentions' == Mention(mentions, name, source)
  {
    var entityConfidence := TermConfidence(term, confidences, clinical);
    diseaseScore' := diseaseScore + weight * entityConfidence;
    matchedTerms' := matchedTerms + [term];
    mentions' := mentions;
    if name !in mentions' {
      mentions' := mentions'[name := []];
    }
    if source !in mentions'[name] {
      mentions' := mentions'[name := mentions'[name] + [source]];
    }
    MentionSteps(mentions, name, source);
  }

  /** The keyword scan of one disease. */
  method ScanKeywords(info: DiseaseInfo, textLower: string, source: Source, confidences: map<string, real>, clinical: real,
                      mentions0: map<string, seq<Source>>)
    returns (diseaseScore: real, matchedTerms: seq<string>, mentions: map<string, seq<Source>>)
    ensures matchedTerms == Hits(info.keywords, textLower)
    ensures diseaseScore == Weight(matchedTerms, 2.0, confidences, clinical)
    ensures mentions == if matchedTerms == [] then mentions0 else Mention(mentions0, info.name, source)
  {
    var keywords := info.keywords;
    diseaseScore := 0.0;
    matchedTerms := [];
    mentions := mentions0;
    for j := 0 to |keywords|
      invariant matchedTerms == Hits(keywords[..j], textLower)
      invariant diseaseScore == Weight(matchedTerms, 2.0, confidences, clinical)
      invariant matchedTerms == [] ==> mentions == mentions0
      invariant matchedTerms != [] ==> mentions == Mention(mentions0, info.name, source)
    {
      HitsNext(keywords, textLower, j);
      var keyword := keywords[j];
      if Contains(textLower, Lower(keyword)) {
        WeightNext(matchedTerms, keyword, 2.0, confidences, clinical);
        MentionTwice(mentions0, info.name, source);
        diseaseScore, matchedTerms, mentions :=
          MatchTerm(keyword, 2.0, info.name, source, confidences, clinical, diseaseScore, matchedTerms, mentions);
      }
    }
    assert keywords[..|keywords|] == keywords;
  }

  /** The scan's test `matched_terms or clinical_confidence > 0.6` does not change while symptoms are scanned. */
  lemma GateSteady(keywordHits: seq<string>, matchedTerms: seq<string>, clinical: real)
    requires keywordHits <= matchedTerms
    requires !SymptomsCount(keywordHits, clinical) ==> matchedTerms == keywordHits
    ensures (matchedTerms != [] || clinical > 0.6) == SymptomsCount(keywordHits, clinical)
  {
  }

  /** The symptom scan of one disease, after its keyword scan found `keywordHits` worth `keywordScore`. */
  method ScanSymptoms(info: DiseaseInfo, textLower: string, source: Source, confidences: map<string, real>, clinical: real,
                      keywordHits: seq<string>, keywordScore: real,
                      mentions0: map<string, seq<Source>>, mentions1: map<string, seq<Source>>)
    returns (diseaseScore: real, matchedTerms: seq<string>, mentions: map<string, seq<Source>>)
    requires keywordHits == [] ==> mentions1 == mentions0
    requires keywordHits != [] ==> mentions1 == Mention(mentions0, info.name, source)
    ensures SymptomsCount(keywordHits, clinical) ==>
      && matchedTerms == keywordHits + Hits(info.relatedSymptoms, textLower)
      && diseaseScore == keywordScore + Weight(Hits(info.relatedSymptoms, textLower), 0.6, confidences, clinical)
    ensures !SymptomsCount(keywordHits, clinical) ==> matchedTerms == keywordHits && diseaseScore == keywordScore
    ensures matchedTerms == [] ==> mentions == mentions0
    ensures matchedTerms != [] ==> mentions == Mention(mentions0, info.name, source)
  {
    var symptoms := info.relatedSymptoms;
    ghost var counts := SymptomsCount(keywordHits, clinical);
    ghost var symptomHits: seq<string> := [];
    diseaseScore, matchedTerms, mentions := keywordScore, keywordHits, mentions1;
    for j := 0 to |symptoms|
      invariant counts ==> symptomHits == Hits(symptoms[..j], textLower)
      invariant !counts ==> symptomHits == []
      invariant matchedTerms == keywordHits + symptomHits
      invariant diseaseScore == keywordScore + Weight(symptomHits, 0.6, confidences, clinical)
      invariant matchedTerms == [] ==> mentions == mentions0
      invariant matchedTerms != [] ==> mentions == Mention(mentions0, info.name, source)
    {
      GateSteady(keywordHits, matchedTerms, clinical);
      HitsNext(symptoms, textLower, j);
      var symptom := symptoms[j];
      if Contains(textLower, Lower(symptom)) {
        if matchedTerms != [] || clinical > 0.6 {
          WeightNext(symptomHits, symptom, 0.6, confidences, clinical);
          MentionTwice(mentions0, info.name, source);
          diseaseScore, matchedTerms, mentions :=
            MatchTerm(symptom, 0.6, info.name, source, confidences, clinical, diseaseScore, matchedTerms, mentions);
          assert keywordHits + symptomHits + [symptom] == keywordHits + (symptomHits + [symptom]);
          symptomHits := symptomHits + [symptom];
        }
      }
    }
    assert symptoms[..|symptoms|] == symptoms;
  }

  /** One iteration of the scoring pass's outer loop: both scans, then the score entry when something matched. */
  method ScoreOne(t: Tally, info: DiseaseInfo, textLower: string, source: Source, confidences: map<string, real>, clinical: real)
    returns (t': Tally)
    ensures t' == ScoreDisease(t, info, textLower, source, confidences, clinical)
  {
    var keywordScore, keywordHits, mentions1 := ScanKeywords(info, textLower, source, confidences, clinical, t.mentions);
    var diseaseScore, matchedTerms, mentions :=
      ScanSymptoms(info, textLower, source, confidences, clinical, keywordHits, keywordScore, t.mentions, mentions1);
    ScansGiveScore(t, info, textLower, source, confidences, clinical, keywordHits, keywordScore,
                   matchedTerms, diseaseScore, mentions);
    if matchedTerms != [] {
      var name := info.name;
      var scores := t.scores;
      var order := if name in scores then t.order else t.order + [name];
      scores := scores[name := (if name in scores then scores[name] else 0.0) + diseaseScore];
      t' := Tally(order, scores, mentions);
    } else {
      t' := t;
    }
  }

  /** What the two scans return determines the disease's step of the scoring pass. */
  lemma ScansGiveScore(t: Tally, info: DiseaseInfo, textLower: string, source: Source, confidences: map<string, real>,
                       clinical: real, keywordHits: seq<string>, keywordScore: real,
                       matchedTerms: seq<string>, diseaseScore: real, mentions: map<string, seq<Source>>)
    requires keywordHits == Hits(info.keywords, textLower)
    requires keywordScore == Weight(keywordHits, 2.0, confidences, clinical)
    requires SymptomsCount(keywordHits, clinical) ==>
      && matchedTerms == keywordHits + Hits(info.relatedSymptoms, textLower)
      && diseaseScore == keywordScore + Weight(Hits(info.relatedSymptoms, textLower), 0.6, confidences, clinical)
    requires !SymptomsCount(keywordHits, clinical) ==> matchedTerms == keywordHits && diseaseScore == keywordScore
    requires matchedTerms == [] ==> mentions == t.mentions
    requires matchedTerms != [] ==> mentions == Mention(t.mentions, info.name, source)
    ensures matchedTerms == [] ==> ScoreDisease(t, info, textLower, source, confidences, clinical) == t
    ensures matchedTerms != [] ==>
      ScoreDisease(t, info, textLower, source, confidences, clinical) == AddScore(t.(mentions := mentions), info.name, diseaseScore)
  {
    assert matchedTerms == MatchedTerms(info, textLower, clinical);
    assert diseaseScore == DiseaseScore(info, textLower, confidences, clinical);
  }

  // ---------------------------------------------------------------------------
  // What one scoring pass does

  /** A disease whose keywords miss and whose clinical context is at most 0.6 matches nothing and leaves the tally alone. */
  lemma SymptomGate(t: Tally, info: DiseaseInfo, textLower: string, source: Source,
                    confidences: map<string, real>, clinical: real)
    requires Hits(info.keywords, textLower) == [] && clinical <= 0.6
    ensures MatchedTerms(info, textLower, clinical) == []
    ensures ScoreDisease(t, info, textLower, source, confidences, clinical) == t
  {
  }

  /** Without the gate, symptoms add neither terms nor score: only keyword hits count. */
  lemma SymptomsIgnored(info: DiseaseInfo, textLower: string, confidences: map<string, real>, clinical: real)
    requires !SymptomsCount(Hits(info.keywords, textLower), clinical)
    ensures MatchedTerms(info, textLower, clinical) == Hits(info.keywords, textLower)
    ensures DiseaseScore(info, textLower, confidences, clinical) == Weight(Hits(info.keywords, textLower), 2.0, confidences, clinical)
  {
  }

  /** One disease's step: its score grows by its disease score when a term matched; no other score changes. */
  lemma ScoreDiseaseEffect(t: Tally, info: DiseaseInfo, textLower: string, source: Source,
                           confidences: map<string, real>, clinical: real, name: string)
    ensures var r := ScoreDisease(t, info, textLower, source, confidences, clinical);
      && (MatchedTerms(info, textLower, clinical) != [] ==>
            r.scores.Keys == t.scores.Keys + {info.name}
            && ScoreOf(r, info.name) == ScoreOf(t, info.name) + DiseaseScore(info, textLower, confidences, clinical))
      && (MatchedTerms(info, textLower, clinical) == [] ==> r == t)
      && (name != info.name ==> ScoreOf(r, name) == ScoreOf(t, name) && MentionsOf(r.mentions, name) == MentionsOf(t.mentions, name))
  {
  }

  /** The scoring pass keeps every key listed once in the key order. */
  lemma {:induction false} ScoreAllValid(t: Tally, db: seq<DiseaseInfo>, textLower: string, source: Source,
                                         confidences: map<string, real>, clinical: real)
    requires Valid(t)
    ensures Valid(ScoreAll(t, db, textLower, source, confidences, clinical))
    decreases |db|
  {
    if db != [] {
      var n := |db| - 1;
      ScoreAllValid(t, db[..n], textLower, source, confidences, clinical);
      var u := ScoreAll(t, db[..n], textLower, source, confidences, clinical);
      if MatchedTerms(db[n], textLower, clinical) != [] {
        AddScoreValid(u.(mentions := Mention(u.mentions, db[n].name, source)), db[n].name,
                      DiseaseScore(db[n], textLower, confidences, clinical));
      }
    }
  }

  /** A key the pass adds belongs to a disease of the knowledge base for which some term matched. */
  lemma {:induction false} ScoreAllNewKey(t: Tally, db: seq<DiseaseInfo>, textLower: string, source: Source,
                                          confidences: map<string, real>, clinical: real, name: string)
    requires name in ScoreAll(t, db, textLower, source, confidences, clinical).scores && name !in t.scores
    ensures exists i :: 0 <= i < |db| && db[i].name == name && MatchedTerms(db[i], textLower, clinical) != []
    decreases |db|
  {
    var n := |db| - 1;
    var u := ScoreAll(t, db[..n], textLower, source, confidences, clinical);
    ScoreDiseaseEffect(u, db[n], textLower, source, confidences, clinical, name);
    if name in u.scores {
      ScoreAllNewKey(t, db[..n], textLower, source, confidences, clinical, name);
      var i :| 0 <= i < n && db[..n][i].name == name && MatchedTerms(db[..n][i], textLower, clinical) != [];
      assert db[i] == db[..n][i];
    } else {
      assert db[n].name == name && MatchedTerms(db[n], textLower, clinical) != [];
    }
  }

  /** A step of the pass never drops a key, and adds the disease's key when some term matched. */
  lemma ScoreDiseaseKeys(t: Tally, info: DiseaseInfo, textLower: string, source: Source,
                         confidences: map<string, real>, clinical: real, name: string)
    ensures name in t.scores ==> name in ScoreDisease(t, info, textLower, source, confidences, clinical).scores
    ensures MatchedTerms(info, textLower, clinical) != [] ==>
      info.name in ScoreDisease(t, info, textLower, source, confidences, clinical).scores
  {
  }

  /** A key present after the first `k` diseases of the pass is present after all of them. */
  lemma {:induction false} ScoreAllKeepsKey(t: Tally, db: seq<DiseaseInfo>, textLower: string, source: Source,
                                            confidences: map<string, real>, clinical: real, k: nat, name: string)
    requires k <= |db| && name in ScoreAll(t, db[..k], textLower, source, confidences, clinical).scores
    ensures name in ScoreAll(t, db, textLower, source, confidences, clinical).scores
    decreases |db| - k
  {
    if k == |db| {
      assert db[..k] == db;
    } else {
      ScoreAllNext(t, db, textLower, source, confidences, clinical, k);
      ScoreDiseaseKeys(ScoreAll(t, db[..k], textLower, source, confidences, clinical), db[k], textLower, source, confidences, clinical, name);
      ScoreAllKeepsKey(t, db, textLower, source, confidences, clinical, k + 1, name);
    }
  }

  /** Every disease of the knowledge base for which some term matched has a key after the pass. */
  lemma {:induction false} ScoreAllMatchedKey(t: Tally, db: seq<DiseaseInfo>, textLower: string, source: Source,
                                              confidences: map<string, real>, clinical: real, i: nat)
    requires i < |db| && MatchedTerms(db[i], textLower, clinical) != []
    ensures db[i].name in ScoreAll(t, db, textLower, source, confidences, clinical).scores
  {
    ScoreAllNext(t, db, textLower, source, confidences, clinical, i);
    ScoreDiseaseKeys(ScoreAll(t, db[..i], textLower, source, confidences, clinical), db[i], textLower, source, confidences, clinical, db[i].name);
    ScoreAllKeepsKey(t, db, textLower, source, confidences, clinical, i + 1, db[i].name);
  }

  /** `after` is `before`, or `before` with `source` appended once when it was missing. */
  predicate AtMostOnce(before: seq<Source>, after: seq<Source>, source: Source)
  {
    after == before || (source !in before && after == before + [source])
  }

  /** In one pass, a source is appended to a disease's mention list at most once. */
  lemma {:induction false} ScoreAllMentionsOnce(t: Tally, db: seq<DiseaseInfo>, textLower: string, source: Source,
                                                confidences: map<string, real>, clinical: real, name: string)
    ensures AtMostOnce(MentionsOf(t.mentions, name),
                       MentionsOf(ScoreAll(t, db, textLower, source, confidences, clinical).mentions, name), source)
    decreases |db|
  {
    if db != [] {
      var n := |db| - 1;
      ScoreAllMentionsOnce(t, db[..n], textLower, source, confidences, clinical, name);
      var u := ScoreAll(t, db[..n], textLower, source, confidences, clinical);
      ScoreDiseaseEffect(u, db[n], textLower, source, confidences, clinical, name);
      var l := MentionsOf(u.mentions, name);
      if name == db[n].name && MatchedTerms(db[n], textLower, clinical) != [] {
        assert MentionsOf(Mention(u.mentions, name, source), name) == l + if source in l then [] else [source];
        if source in MentionsOf(t.mentions, name) {
          assert source in l;
        }
      }
    }
  }

  // ---------------------------------------------------------------------------
  // Previous diagnoses

  /** One disease against one lower-cased previous diagnosis: 0.8 and a `PREVIOUS_DIAGNOSIS` mention, without dedup. */
  function PrevDisease(t: Tally, info: DiseaseInfo, diagnosisLower: string): Tally
  {
    if Contains(diagnosisLower, Lower(info.name)) then
      AddScore(t.(mentions := t.mentions[info.name := MentionsOf(t.mentions, info.name) + [PreviousDiagnosis]]), info.name, 0.8)
    else t
  }

  /** One previous diagnosis against the whole knowledge base, in order. */
  function PrevAll(t: Tally, db: seq<DiseaseInfo>, diagnosisLower: string): Tally
  {
    if db == [] then t else PrevDisease(PrevAll(t, db[..|db| - 1], diagnosisLower), db[|db| - 1], diagnosisLower)
  }

  /** The previous diagnoses, in order. */
  function PrevDiagnoses(t: Tally, db: seq<DiseaseInfo>, diagnoses: seq<string>): Tally
  {
    if diagnoses == [] then t
    else PrevAll(PrevDiagnoses(t, db, diagnoses[..|diagnoses| - 1]), db, Lower(diagnoses[|diagnoses| - 1]))
  }

  /** A diagnosis that names no disease of `db` leaves that disease's score and mentions alone. */
  lemma {:induction false} PrevAllOther(t: Tally, db: seq<DiseaseInfo>, diagnosisLower: string, name: string)
    requires forall i :: 0 <= i < |db| ==> db[i].name != name
    ensures ScoreOf(PrevAll(t, db, diagnosisLower), name) == ScoreOf(t, name)
    ensures MentionsOf(PrevAll(t, db, diagnosisLower).mentions, name) == MentionsOf(t.mentions, name)
    decreases |db|
  {
    if db != [] {
      PrevAllOther(t, db[..|db| - 1], diagnosisLower, name);
    }
  }

  /** The previous diagnoses that mention `name`, ignoring case. */
  function Naming(diagnoses: seq<string>, name: string): seq<string>
  {
    Filter(diagnoses, NamesDisease(name))
  }

  function NamesDisease(name: string): string -> bool
  {
    d => Contains(Lower(d), Lower(name))
  }

  /** A diagnosis naming the disease adds 0.8 to its score and one mention; any other step leaves `name` alone. */
  lemma PrevDiseaseEffect(t: Tally, info: DiseaseInfo, diagnosisLower: string, name: string)
    ensures name == info.name && Contains(diagnosisLower, Lower(name)) ==>
      && ScoreOf(PrevDisease(t, info, diagnosisLower), name) == ScoreOf(t, name) + 0.8
      && MentionsOf(PrevDisease(t, info, diagnosisLower).mentions, name) == MentionsOf(t.mentions, name) + [PreviousDiagnosis]
    ensures !(name == info.name && Contains(diagnosisLower, Lower(name))) ==>
      && ScoreOf(PrevDisease(t, info, diagnosisLower), name) == ScoreOf(t, name)
      && MentionsOf(PrevDisease(t, info, diagnosisLower).mentions, name) == MentionsOf(t.mentions, name)
  {
  }

  /** With distinct names, a diagnosis adds 0.8 and one mention to the disease it names, and nothing otherwise. */
  lemma {:induction false} PrevAllNamed(t: Tally, db: seq<DiseaseInfo>, diagnosisLower: string, k: nat)
    requires k < |db| && forall i, j :: 0 <= i < j < |db| ==> db[i].name != db[j].name
    ensures Contains(diagnosisLower, Lower(db[k].name)) ==>
      && ScoreOf(PrevAll(t, db, diagnosisLower), db[k].name) == ScoreOf(t, db[k].name) + 0.8
      && MentionsOf(PrevAll(t, db, diagnosisLower).mentions, db[k].name) == MentionsOf(t.mentions, db[k].name) + [PreviousDiagnosis]
    ensures !Contains(diagnosisLower, Lower(db[k].name)) ==>
      && ScoreOf(PrevAll(t, db, diagnosisLower), db[k].name) == ScoreOf(t, db[k].name)
      && MentionsOf(PrevAll(t, db, diagnosisLower).mentions, db[k].name) == MentionsOf(t.mentions, db[k].name)
    decreases |db|
  {
    var n := |db| - 1;
    var name := db[k].name;
    var u := PrevAll(t, db[..n], diagnosisLower);
    PrevDiseaseEffect(u, db[n], diagnosisLower, name);
    if k < n {
      assert db[..n][k] == db[k];
      PrevAllNamed(t, db[..n], diagnosisLower, k);
    } else {
      PrevAllOther(t, db[..n], diagnosisLower, name);
    }
  }

  lemma NamingNext(diagnoses: seq<string>, name: string)
    requires diagnoses != []
    ensures var n := |diagnoses| - 1;
      |Naming(diagnoses, name)| == |Naming(diagnoses[..n], name)| + if Contains(Lower(diagnoses[n]), Lower(name)) then 1 else 0
  {
  }

  /** One diagnosis's step of the mention list, counted. */
  lemma MentionStep(before: seq<Source>, after: seq<Source>, base: seq<Source>, c: nat, hit: bool, total: nat)
    requires before == base + Repeat(PreviousDiagnosis, c)
    requires hit ==> after == before + [PreviousDiagnosis] && total == c + 1
    requires !hit ==> after == before && total == c
    ensures after == base + Repeat(PreviousDiagnosis, total)
  {
    assert Repeat(PreviousDiagnosis, c + 1) == Repeat(PreviousDiagnosis, c) + [PreviousDiagnosis];
    assert base + Repeat(PreviousDiagnosis, c) + [PreviousDiagnosis] == base + (Repeat(PreviousDiagnosis, c) + [PreviousDiagnosis]);
  }

  /** Each previous diagnosis naming a disease adds 0.8 to its score. */
  lemma {:induction false} PrevDiagnosesScore(t: Tally, db: seq<DiseaseInfo>, diagnoses: seq<string>, k: nat)
    requires k < |db| && forall i, j :: 0 <= i < j < |db| ==> db[i].name != db[j].name
    ensures ScoreOf(PrevDiagnoses(t, db, diagnoses), db[k].name)
         == ScoreOf(t, db[k].name) + 0.8 * (|Naming(diagnoses, db[k].name)| as real)
    decreases |diagnoses|
  {
    if diagnoses != [] {
      var n := |diagnoses| - 1;
      PrevDiagnosesScore(t, db, diagnoses[..n], k);
      PrevAllNamed(PrevDiagnoses(t, db, diagnoses[..n]), db, Lower(diagnoses[n]), k);
      NamingNext(diagnoses, db[k].name);
    }
  }

  /** Each previous diagnosis naming a disease appends one `PREVIOUS_DIAGNOSIS` mention, without dedup. */
  lemma {:induction false} PrevDiagnosesMentions(t: Tally, db: seq<DiseaseInfo>, diagnoses: seq<string>, k: nat)
    requires k < |db| && forall i, j :: 0 <= i < j < |db| ==> db[i].name != db[j].name
    ensures MentionsOf(PrevDiagnoses(t, db, diagnoses).mentions, db[k].name)
         == MentionsOf(t.mentions, db[k].name) + Repeat(PreviousDiagnosis, |Naming(diagnoses, db[k].name)|)
    decreases |diagnoses|
  {
    if diagnoses != [] {
      var n := |diagnoses| - 1;
      var name := db[k].name;
      var u := PrevDiagnoses(t, db, diagnoses[..n]);
      PrevDiagnosesMentions(t, db, diagnoses[..n], k);
      PrevAllNamed(u, db, Lower(diagnoses[n]), k);
      NamingNext(diagnoses, name);
      var r := PrevAll(u, db, Lower(diagnoses[n]));
      assert PrevDiagnoses(t, db, diagnoses) == r;
      MentionStep(MentionsOf(u.mentions, name), MentionsOf(r.mentions, name), MentionsOf(t.mentions, name),
                  |Naming(diagnoses[..n], name)|, Contains(Lower(diagnoses[n]), Lower(name)), |Naming(diagnoses, name)|);
    }
  }

  /** Previous-diagnosis scoring keeps every key listed once in the key order. */
  lemma {:induction false} PrevAllValid(t: Tally, db: seq<DiseaseInfo>, diagnosisLower: string)
    requires Valid(t)
    ensures Valid(PrevAll(t, db, diagnosisLower))
    decreases |db|
  {
    if db != [] {
      var n := |db| - 1;
      PrevAllValid(t, db[..n], diagnosisLower);
      var u := PrevAll(t, db[..n], diagnosisLower);
      var info := db[n];
      AddScoreValid(u.(mentions := u.mentions[info.name := MentionsOf(u.mentions, info.name) + [PreviousDiagnosis]]), info.name, 0.8);
    }
  }

  lemma {:induction false} PrevDiagnosesValid(t: Tally, db: seq<DiseaseInfo>, diagnoses: seq<string>)
    requires Valid(t)
    ensures Valid(PrevDiagnoses(t, db, diagnoses))
    decreases |diagnoses|
  {
    if diagnoses != [] {
      var n := |diagnoses| - 1;
      PrevDiagnosesValid(t, db, diagnoses[..n]);
      PrevAllValid(PrevDiagnoses(t, db, diagnoses[..n]), db, Lower(diagnoses[n]));
    }
  }

  // ---------------------------------------------------------------------------
  // Ranking and detections

  function ItemScore(item: (string, real)): real
  {
    item.1
  }

  /** `disease_scores.items()`, in insertion order. */
  function Items(t: Tally): seq<(string, real)>
  {
    seq(|t.order|, i requires 0 <= i < |t.order| => (t.order[i], ScoreOf(t, t.order[i])))
  }

  /** `sorted(disease_scores.items(), key=score, reverse=True)[:10]`. */
  function Ranked(t: Tally): seq<(string, real)>
  {
    Take(SortDesc(Items(t), ItemScore), 10)
  }

  /**
    The ten highest-scoring items (all of them when there are fewer), highest
    score first, each one of the tally's items.
   */
  lemma RankedOrder(t: Tally)
    ensures |Ranked(t)| <= 10
    ensures |Ranked(t)| == if |Items(t)| < 10 then |Items(t)| else 10
    ensures Descending(Ranked(t), ItemScore)
    ensures forall i :: 0 <= i < |Ranked(t)| ==> Ranked(t)[i] in Items(t)
    ensures |Items(t)| <= 10 ==> multiset(Ranked(t)) == multiset(Items(t))
    ensures forall x, y :: x in Items(t) && x !in Ranked(t) && y in Ranked(t) ==> ItemScore(y) >= ItemScore(x)
  {
    var sorted := SortDesc(Items(t), ItemScore);
    SortDescDescending(Items(t), ItemScore);
    TakeSortedTop(Items(t), ItemScore, 10);
    forall i | 0 <= i < |Ranked(t)|
      ensures Ranked(t)[i] in Items(t)
    {
      assert Ranked(t)[i] == sorted[i];
      assert sorted[i] in multiset(sorted);
    }
  }

  /** Items of equal score keep their insertion order among the ranked ones. */
  lemma RankedStable(t: Tally, v: real)
    ensures KeyClass(Ranked(t), ItemScore, v) <= KeyClass(Items(t), ItemScore, v)
  {
    var sorted := SortDesc(Items(t), ItemScore);
    SortDescStable(Items(t), ItemScore, v);
    assert Ranked(t) == sorted[..|Ranked(t)|];
    FilterPrefix(sorted, HasKey(ItemScore, v), |Ranked(t)|);
  }

  /** `min(score * 0.25, 1.0)`. */
  function Confidence(score: real): (c: real)
    ensures c <= 1.0 && c <= score * 0.25
    ensures c == 1.0 || c == score * 0.25
  {
    if score * 0.25 <= 1.0 then score * 0.25 else 1.0
  }

  /** A higher score never gets a lower confidence. */
  lemma ConfidenceMonotone(a: real, b: real)
    requires a >= b
    ensures Confidence(a) >= Confidence(b)
  {
  }

  /** `disease_database.get(name)`. */
  function Lookup(db: seq<DiseaseInfo>, name: string): (r: Option<DiseaseInfo>)
    ensures r.Some? ==> r.value in db && r.value.name == name
    ensures r.None? <==> forall i :: 0 <= i < |db| ==> db[i].name != name
  {
    if db == [] then None else if db[0].name == name then Some(db[0]) else Lookup(db[1..], name)
  }

  /** `any(kw in text_lower for kw in terms)`. */
  predicate MentionsTerm(terms: seq<string>, textLower: string)
  {
    exists k :: 0 <= k < |terms| && Contains(textLower, terms[k])
  }

  function Supports(terms: seq<string>): MedicalEntity -> bool
  {
    (e: MedicalEntity) => MentionsTerm(terms, Lower(e.text))
  }

  function EntityPart(p: (MedicalEntity, Source)): MedicalEntity
  {
    p.0
  }

  /** The entities, from any source, whose lower-cased text contains one of the terms. */
  function Supporting(all: seq<(MedicalEntity, Source)>, terms: seq<string>): seq<MedicalEntity>
  {
    Filter(MapSeq(EntityPart, all), Supports(terms))
  }

  /** A supporting entity is one of the entities and contains one of the terms. */
  lemma SupportingSound(all: seq<(MedicalEntity, Source)>, terms: seq<string>, k: nat)
    requires k < |Supporting(all, terms)|
    ensures exists i :: 0 <= i < |all| && all[i].0 == Supporting(all, terms)[k]
    ensures MentionsTerm(terms, Lower(Supporting(all, terms)[k].text))
  {
    var es := MapSeq(EntityPart, all);
    FilterSound(es, Supports(terms), k);
    var i :| 0 <= i < |es| && es[i] == Supporting(all, terms)[k];
    assert all[i].0 == es[i];
  }

  /** Every entity containing one of the terms supports the detection. */
  lemma SupportingComplete(all: seq<(MedicalEntity, Source)>, terms: seq<string>, i: nat)
    requires i < |all| && MentionsTerm(terms, Lower(all[i].0.text))
    ensures all[i].0 in Supporting(all, terms)
  {
    var es := MapSeq(EntityPart, all);
    assert es[i] == all[i].0;
    FilterComplete(es, Supports(terms), i);
  }

  /** Without terms (a disease missing from the knowledge base) nothing supports a detection. */
  lemma SupportingNone(all: seq<(MedicalEntity, Source)>)
    ensures Supporting(all, []) == []
  {
    FilterNone(MapSeq(EntityPart, all), Supports([]));
  }

  /** `f"Detected from {count} source(s)"`. */
  function EvidenceSummary(count: nat): string
  {
    "Detected from " + NatToString(count) + " source(s)"
  }

  /** The summary's number reads back as the count. */
  lemma EvidenceSummaryCount(count: nat)
    ensures var s := EvidenceSummary(count);
      && |s| > 24 && s[..14] == "Detected from " && s[|s| - 10..] == " source(s)"
      && (forall i :: 14 <= i < |s| - 10 ==> IsDigit(s[i]))
      && ParseNat(s[14..|s| - 10]) == count
  {
    var digits := NatToString(count);
    var s := EvidenceSummary(count);
    assert s[14..|s| - 10] == digits;
    ParseNatToString(count);
  }

  /** `DiseaseDetection`; its `position` is never set and is left out. */
  datatype Detection = Detection(diseaseName: string, icd10Code: string, snomedCode: Option<string>, confidence: real,
                                 severity: string, supportingEntities: seq<MedicalEntity>,
                                 mentionedSources: seq<Source>, evidenceSummary: string)

  /** The detection built for one ranked item. */
  function DetectionOf(db: seq<DiseaseInfo>, t: Tally, all: seq<(MedicalEntity, Source)>, item: (string, real)): Detection
  {
    var info := Lookup(db, item.0);
    var terms := if info.Some? then info.value.keywords + info.value.relatedSymptoms else [];
    var sources := MentionsOf(t.mentions, item.0);
    Detection(item.0, if info.Some? then info.value.icd10 else "Unknown", if info.Some? then Some(info.value.snomed) else None,
              Confidence(item.1), if info.Some? then info.value.severity else "medium",
              Supporting(all, terms), sources, EvidenceSummary(|sources|))
  }

  /** A detection carries its disease's codes and severity, or the defaults for a disease missing from the knowledge base. */
  lemma DetectionOfInfo(db: seq<DiseaseInfo>, t: Tally, all: seq<(MedicalEntity, Source)>, item: (string, real), k: nat)
    requires k < |db| && db[k].name == item.0 && forall i :: 0 <= i < k ==> db[i].name != item.0
    ensures var d := DetectionOf(db, t, all, item);
      && d.icd10Code == db[k].icd10 && d.snomedCode == Some(db[k].snomed) && d.severity == db[k].severity
      && d.supportingEntities == Supporting(all, db[k].keywords + db[k].relatedSymptoms)
  {
    LookupFirst(db, item.0, k);
  }

  lemma {:induction false} LookupFirst(db: seq<DiseaseInfo>, name: string, k: nat)
    requires k < |db| && db[k].name == name && forall i :: 0 <= i < k ==> db[i].name != name
    ensures Lookup(db, name) == Some(db[k])
    decreases k
  {
    if k > 0 {
      LookupFirst(db[1..], name, k - 1);
    }
  }

  lemma DetectionOfUnknown(db: seq<DiseaseInfo>, t: Tally, all: seq<(MedicalEntity, Source)>, item: (string, real))
    requires forall i :: 0 <= i < |db| ==> db[i].name != item.0
    ensures var d := DetectionOf(db, t, all, item);
      d.icd10Code == "Unknown" && d.snomedCode == None && d.severity == "medium" && d.supportingEntities == []
  {
    SupportingNone(all);
  }

  function DetectionFor(db: seq<DiseaseInfo>, t: Tally, all: seq<(MedicalEntity, Source)>): ((string, real)) -> Detection
  {
    item => DetectionOf(db, t, all, item)
  }

  /** `detections` of `detect_diseases`. */
  function Detections(db: seq<DiseaseInfo>, t: Tally, all: seq<(MedicalEntity, Source)>): seq<Detection>
  {
    MapSeq(DetectionFor(db, t, all), Ranked(t))
  }

  /** At most ten detections, confidence at most 1 and not increasing down the list. */
  lemma DetectionsBounded(db: seq<DiseaseInfo>, t: Tally, all: seq<(MedicalEntity, Source)>)
    ensures var ds := Detections(db, t, all);
      && |ds| <= 10
      && (forall i :: 0 <= i < |ds| ==> ds[i].confidence <= 1.0)
      && (forall i, j :: 0 <= i < j < |ds| ==> ds[i].confidence >= ds[j].confidence)
  {
    var ds := Detections(db, t, all);
    var r := Ranked(t);
    RankedOrder(t);
    assert forall i :: 0 <= i < |ds| ==> ds[i] == DetectionOf(db, t, all, r[i]);
    forall i, j | 0 <= i < j < |ds|
      ensures ds[i].confidence >= ds[j].confidence
    {
      ConfidenceMonotone(ItemScore(r[i]), ItemScore(r[j]));
    }
  }

  /** Every detection is of a scored disease, and its confidence is not negative when no score is. */
  lemma DetectionsScored(db: seq<DiseaseInfo>, t: Tally, all: seq<(MedicalEntity, Source)>, i: nat)
    requires i < |Detections(db, t, all)|
    ensures Detections(db, t, all)[i].diseaseName in t.order
    ensures (forall n :: n in t.scores ==> t.scores[n] >= 0.0) ==> Detections(db, t, all)[i].confidence >= 0.0
  {
    var r := Ranked(t);
    RankedOrder(t);
    var k :| 0 <= k < |Items(t)| && Items(t)[k] == r[i];
    assert Detections(db, t, all)[i] == DetectionOf(db, t, all, r[i]);
  }

  /** An entity as reported: text, type, confidence and the source's name. */
  datatype EntityRecord = EntityRecord(text: string, entityType: string, confidence: real, source: string)

  function RecordOfEntity(p: (MedicalEntity, Source)): EntityRecord
  {
    EntityRecord(p.0.text, p.0.entityType, p.0.confidence, SourceValue(p.1))
  }

  function Confident(p: (MedicalEntity, Source)): bool
  {
    p.0.confidence > 0.5
  }

  /** `formatted_entities`: the entities above the threshold, in order. */
  function FormattedEntities(all: seq<(MedicalEntity, Source)>): seq<EntityRecord>
  {
    MapSeq(RecordOfEntity, Filter(all, Confident))
  }

  /** Every reported entity is above the threshold. */
  lemma FormattedConfident(all: seq<(MedicalEntity, Source)>, k: nat)
    requires k < |FormattedEntities(all)|
    ensures FormattedEntities(all)[k].confidence > 0.5
  {
    FilterSound(all, Confident, k);
  }

  /** Entities that all passed the recogniser's threshold are all reported. */
  lemma FormattedKeepsAll(all: seq<(MedicalEntity, Source)>)
    requires forall i :: 0 <= i < |all| ==> all[i].0.confidence > 0.5
    ensures |FormattedEntities(all)| == |all|
  {
    FilterAll(all, Confident);
  }

  /** `[(e, source) for e in entities]`. */
  function Tag(entities: seq<MedicalEntity>, source: Source): (r: seq<(MedicalEntity, Source)>)
    ensures |r| == |entities|
  {
    seq(|entities|, i requires 0 <= i < |entities| => (entities[i], source))
  }

  /** What `extract_entities` returns for a text, given the recogniser's raw results. */
  function SourceEntities(text: string, results: seq<NerResult>): seq<MedicalEntity>
  {
    if Strip(text) == "" then [] else Entities(results)
  }

  /** What the language models return for one request. */
  datatype ModelOutputs = ModelOutputs(
    transcriptionNer: seq<NerResult>, clinicalNotesNer: seq<NerResult>, patientSummaryNer: seq<NerResult>,
    transcriptionScore: real, clinicalNotesScore: real, patientSummaryScore: real, labResultsScore: real)

  /** The scoring pass for one text, skipped when the text is absent or empty. */
  function TextScores(db: seq<DiseaseInfo>, t: Tally, text: string, source: Source, confidences: map<string, real>,
                      classifierScore: real): Tally
  {
    if text == "" then t
    else ScoreAll(t, db, Lower(text), source, confidences, ClinicalConfidence(AnalyzeClinicalText(text, classifierScore)))
  }

  function EntityScores(db: seq<DiseaseInfo>, t: Tally, text: string, source: Source, results: seq<NerResult>,
                        classifierScore: real): Tally
  {
    TextScores(db, t, text, source, ConfidenceMap(SourceEntities(text, results)), classifierScore)
  }

  /** The scores and mentions after every source of `detect_diseases`, in its fixed order. */
  function FinalTally(db: seq<DiseaseInfo>, transcription: string, clinicalNotes: string, patientSummary: string,
                      labResults: string, previousDiagnosis: seq<string>, m: ModelOutputs): Tally
  {
    var t1 := EntityScores(db, NoScores, transcription, Transcription, m.transcriptionNer, m.transcriptionScore);
    var t2 := EntityScores(db, t1, clinicalNotes, ClinicalNotes, m.clinicalNotesNer, m.clinicalNotesScore);
    var t3 := EntityScores(db, t2, patientSummary, PatientSummary, m.patientSummaryNer, m.patientSummaryScore);
    var t4 := TextScores(db, t3, labResults, LabResults, map[], m.labResultsScore);
    PrevDiagnoses(t4, db, previousDiagnosis)
  }

  /** `all_entities`: the entities of the transcription, the clinical notes and the patient summary, tagged. */
  function AllEntities(transcription: string, clinicalNotes: string, patientSummary: string, m: ModelOutputs)
    : seq<(MedicalEntity, Source)>
  {
    (if transcription == "" then [] else Tag(SourceEntities(transcription, m.transcriptionNer), Transcription))
    + (if clinicalNotes == "" then [] else Tag(SourceEntities(clinicalNotes, m.clinicalNotesNer), ClinicalNotes))
    + (if patientSummary == "" then [] else Tag(SourceEntities(patientSummary, m.patientSummaryNer), PatientSummary))
  }

  /** Every source's pass keeps every key listed once in the key order. */
  lemma FinalTallyValid(db: seq<DiseaseInfo>, transcription: string, clinicalNotes: string, patientSummary: string,
                        labResults: string, previousDiagnosis: seq<string>, m: ModelOutputs)
    ensures Valid(FinalTally(db, transcription, clinicalNotes, patientSummary, labResults, previousDiagnosis, m))
  {
    var t1 := EntityScores(db, NoScores, transcription, Transcription, m.transcriptionNer, m.transcriptionScore);
    var t2 := EntityScores(db, t1, clinicalNotes, ClinicalNotes, m.clinicalNotesNer, m.clinicalNotesScore);
    var t3 := EntityScores(db, t2, patientSummary, PatientSummary, m.patientSummaryNer, m.patientSummaryScore);
    var t4 := TextScores(db, t3, labResults, LabResults, map[], m.labResultsScore);
    TextScoresValid(db, NoScores, transcription, Transcription,
                    ConfidenceMap(SourceEntities(transcription, m.transcriptionNer)), m.transcriptionScore);
    TextScoresValid(db, t1, clinicalNotes, ClinicalNotes,
                    ConfidenceMap(SourceEntities(clinicalNotes, m.clinicalNotesNer)), m.clinicalNotesScore);
    TextScoresValid(db, t2, patientSummary, PatientSummary,
                    ConfidenceMap(SourceEntities(patientSummary, m.patientSummaryNer)), m.patientSummaryScore);
    TextScoresValid(db, t3, labResults, LabResults, map[], m.labResultsScore);
    PrevDiagnosesValid(t4, db, previousDiagnosis);
  }

  lemma TextScoresValid(db: seq<DiseaseInfo>, t: Tally, text: string, source: Source, confidences: map<string, real>,
                        classifierScore: real)
    requires Valid(t)
    ensures Valid(TextScores(db, t, text, source, confidences, classifierScore))
  {
    if text != "" {
      ScoreAllValid(t, db, Lower(text), source, confidences, ClinicalConfidence(AnalyzeClinicalText(text, classifierScore)));
    }
  }

  /** Every reported entity passed the recogniser's threshold, so all of them are reported. */
  lemma AllEntitiesReported(transcription: string, clinicalNotes: string, patientSummary: string, m: ModelOutputs)
    ensures |FormattedEntities(AllEntities(transcription, clinicalNotes, patientSummary, m))|
         == |AllEntities(transcription, clinicalNotes, patientSummary, m)|
  {
    var all := AllEntities(transcription, clinicalNotes, patientSummary, m);
    TagConfident(transcription, Transcription, m.transcriptionNer);
    TagConfident(clinicalNotes, ClinicalNotes, m.clinicalNotesNer);
    TagConfident(patientSummary, PatientSummary, m.patientSummaryNer);
    FormattedKeepsAll(all);
  }

  lemma TagConfident(text: string, source: Source, results: seq<NerResult>)
    ensures forall i :: 0 <= i < |Tag(SourceEntities(text, results), source)| ==>
      Tag(SourceEntities(text, results), source)[i].0.confidence > 0.5
  {
    forall i | 0 <= i < |Tag(SourceEntities(text, results), source)|
      ensures Tag(SourceEntities(text, results), source)[i].0.confidence > 0.5
    {
      EntitiesConfident(results, i);
    }
  }

  /** No score is negative. */
  predicate NonNegative(t: Tally)
  {
    forall n :: n in t.scores ==> t.scores[n] >= 0.0
  }

  /** The entity map holds confidences above the threshold only. */
  lemma {:induction false} ConfidenceMapAbove(entities: seq<MedicalEntity>)
    requires forall i :: 0 <= i < |entities| ==> entities[i].confidence > 0.5
    ensures forall k :: k in ConfidenceMap(entities) ==> ConfidenceMap(entities)[k] > 0.5
    decreases |entities|
  {
    if entities != [] {
      ConfidenceMapAbove(entities[..|entities| - 1]);
    }
  }

  /** With non-negative confidences, the scoring pass only adds non-negative amounts. */
  lemma {:induction false} ScoreAllNonNegative(t: Tally, db: seq<DiseaseInfo>, textLower: string, source: Source,
                                               confidences: map<string, real>, clinical: real)
    requires NonNegative(t) && clinical >= 0.0 && forall k :: k in confidences ==> confidences[k] >= 0.0
    ensures NonNegative(ScoreAll(t, db, textLower, source, confidences, clinical))
    decreases |db|
  {
    if db != [] {
      var n := |db| - 1;
      ScoreAllNonNegative(t, db[..n], textLower, source, confidences, clinical);
      var info := db[n];
      WeightNonNegative(Hits(info.keywords, textLower), 2.0, confidences, clinical);
      WeightNonNegative(Hits(info.relatedSymptoms, textLower), 0.6, confidences, clinical);
      assert DiseaseScore(info, textLower, confidences, clinical) >= 0.0;
    }
  }

  lemma {:induction false} PrevAllNonNegative(t: Tally, db: seq<DiseaseInfo>, diagnosisLower: string)
    requires NonNegative(t)
    ensures NonNegative(PrevAll(t, db, diagnosisLower))
    decreases |db|
  {
    if db != [] {
      PrevAllNonNegative(t, db[..|db| - 1], diagnosisLower);
    }
  }

  lemma {:induction false} PrevDiagnosesNonNegative(t: Tally, db: seq<DiseaseInfo>, diagnoses: seq<string>)
    requires NonNegative(t)
    ensures NonNegative(PrevDiagnoses(t, db, diagnoses))
    decreases |diagnoses|
  {
    if diagnoses != [] {
      var n := |diagnoses| - 1;
      PrevDiagnosesNonNegative(t, db, diagnoses[..n]);
      PrevAllNonNegative(PrevDiagnoses(t, db, diagnoses[..n]), db, Lower(diagnoses[n]));
    }
  }

  lemma EntityScoresNonNegative(db: seq<DiseaseInfo>, t: Tally, text: string, source: Source, results: seq<NerResult>,
                                classifierScore: real)
    requires NonNegative(t) && classifierScore >= 0.0
    ensures NonNegative(EntityScores(db, t, text, source, results, classifierScore))
  {
    var entities := SourceEntities(text, results);
    forall i | 0 <= i < |entities|
      ensures entities[i].confidence > 0.5
    {
      EntitiesConfident(results, i);
    }
    ConfidenceMapAbove(entities);
    if text != "" {
      ScoreAllNonNegative(t, db, Lower(text), source, ConfidenceMap(entities),
                          ClinicalConfidence(AnalyzeClinicalText(text, classifierScore)));
    }
  }

  lemma TextScoresNonNegative(db: seq<DiseaseInfo>, t: Tally, text: string, source: Source, classifierScore: real)
    requires NonNegative(t) && classifierScore >= 0.0
    ensures NonNegative(TextScores(db, t, text, source, map[], classifierScore))
  {
    if text != "" {
      ScoreAllNonNegative(t, db, Lower(text), source, map[], ClinicalConfidence(AnalyzeClinicalText(text, classifierScore)));
    }
  }

  /** With non-negative classifier scores, every score of the request is non-negative. */
  lemma FinalTallyNonNegative(db: seq<DiseaseInfo>, transcription: string, clinicalNotes: string, patientSummary: string,
                              labResults: string, previousDiagnosis: seq<string>, m: ModelOutputs)
    requires m.transcriptionScore >= 0.0 && m.clinicalNotesScore >= 0.0 && m.patientSummaryScore >= 0.0
    requires m.labResultsScore >= 0.0
    ensures NonNegative(FinalTally(db, transcription, clinicalNotes, patientSummary, labResults, previousDiagnosis, m))
  {
    var t1 := EntityScores(db, NoScores, transcription, Transcription, m.transcriptionNer, m.transcriptionScore);
    var t2 := EntityScores(db, t1, clinicalNotes, ClinicalNotes, m.clinicalNotesNer, m.clinicalNotesScore);
    var t3 := EntityScores(db, t2, patientSummary, PatientSummary, m.patientSummaryNer, m.patientSummaryScore);
    var t4 := TextScores(db, t3, labResults, LabResults, map[], m.labResultsScore);
    assert FinalTally(db, transcription, clinicalNotes, patientSummary, labResults, previousDiagnosis, m)
        == PrevDiagnoses(t4, db, previousDiagnosis);
    EntityScoresNonNegative(db, NoScores, transcription, Transcription, m.transcriptionNer, m.transcriptionScore);
    EntityScoresNonNegative(db, t1, clinicalNotes, ClinicalNotes, m.clinicalNotesNer, m.clinicalNotesScore);
    EntityScoresNonNegative(db, t2, patientSummary, PatientSummary, m.patientSummaryNer, m.patientSummaryScore);
    TextScoresNonNegative(db, t3, labResults, LabResults, m.labResultsScore);
    PrevDiagnosesNonNegative(t4, db, previousDiagnosis);
  }

  // ---------------------------------------------------------------------------
  // The response

  /** `AnalysisRequest`; an absent text is the empty string, an absent diagnosis list the empty list. */
  datatype AnalysisRequest = AnalysisRequest(sessionId: string, transcription: string, clinicalNotes: string,
                                             patientSummary: string, labResults: string, previousDiagnosis: seq<string>)

  /** One detection as reported. */
  datatype DetectionRecord = DetectionRecord(diseaseName: string, icd10Code: string, snomedCode: Option<string>,
                                             confidence: real, severity: string, supportingSymptoms: seq<string>,
                                             sources: seq<string>, evidence: string)

  /** `AnalysisResponse`. */
  datatype AnalysisResponse = AnalysisResponse(sessionId: string, detections: seq<DetectionRecord>,
                                               extractedEntities: seq<EntityRecord>, timestamp: string,
                                               analysisConfidence: real, sourcesAnalyzed: seq<string>)

  function EntityText(e: MedicalEntity): string
  {
    e.text
  }

  function RecordOf(d: Detection): DetectionRecord
  {
    DetectionRecord(d.diseaseName, d.icd10Code, d.snomedCode, d.confidence, d.severity,
                    MapSeq(EntityText, d.supportingEntities), MapSeq(SourceValue, d.mentionedSources), d.evidenceSummary)
  }

  function RecordConfidence(r: DetectionRecord): real
  {
    r.confidence
  }

  /** The mean confidence of the detections, 0.0 without any. */
  function AverageConfidence(records: seq<DetectionRecord>): (avg: real)
    ensures records == [] ==> avg == 0.0
  {
    if records == [] then 0.0 else SumOf(records, RecordConfidence) / (|records| as real)
  }

  /** The mean of confidences in `0..1` lies in `0..1`. */
  lemma AverageConfidenceBounded(records: seq<DetectionRecord>)
    requires forall i :: 0 <= i < |records| ==> 0.0 <= records[i].confidence <= 1.0
    ensures 0.0 <= AverageConfidence(records) <= 1.0
  {
    if records != [] {
      SumOfAtMost(records, RecordConfidence, 1.0);
      SumOfNonNegative(records, RecordConfidence);
      DivAtMostOne(SumOf(records, RecordConfidence), |records| as real);
    }
  }

  lemma DivAtMostOne(a: real, n: real)
    requires 0.0 <= a <= n * 1.0 && n > 0.0
    ensures 0.0 <= a / n <= 1.0
  {
  }

  /** Whether the request holds a (truthy) input of that source. */
  predicate Present(r: AnalysisRequest, s: Source)
  {
    match s
    case Transcription => r.transcription != ""
    case ClinicalNotes => r.clinicalNotes != ""
    case PatientSummary => r.patientSummary != ""
    case LabResults => r.labResults != ""
    case PreviousDiagnosis => r.previousDiagnosis != []
  }

  /** `[s]` when the source is present, else nothing. */
  function IfPresent(r: AnalysisRequest, s: Source): seq<Source>
  {
    if Present(r, s) then [s] else []
  }

  /** `sources_analyzed` (as sources; the response lists their values). */
  function PresentSources(r: AnalysisRequest): seq<Source>
  {
    IfPresent(r, Transcription) + IfPresent(r, ClinicalNotes) + IfPresent(r, PatientSummary)
      + IfPresent(r, LabResults) + IfPresent(r, PreviousDiagnosis)
  }

  /** The position of a source in the fixed order. */
  function SourceRank(s: Source): int
  {
    match s
    case Transcription => 0
    case ClinicalNotes => 1
    case PatientSummary => 2
    case LabResults => 3
    case PreviousDiagnosis => 4
  }

  /** Each source is listed exactly when it is present. */
  lemma PresentSourcesExactly(r: AnalysisRequest, s: Source)
    ensures s in PresentSources(r) <==> Present(r, s)
  {
    var a, b, c, d, e := IfPresent(r, Transcription), IfPresent(r, ClinicalNotes), IfPresent(r, PatientSummary),
                         IfPresent(r, LabResults), IfPresent(r, PreviousDiagnosis);
    assert s in a + b + c + d + e <==> s in a || s in b || s in c || s in d || s in e;
  }

  predicate InRankOrder(xs: seq<Source>)
  {
    forall i, j :: 0 <= i < j < |xs| ==> SourceRank(xs[i]) < SourceRank(xs[j])
  }

  predicate RanksBelow(xs: seq<Source>, k: int)
  {
    forall i :: 0 <= i < |xs| ==> SourceRank(xs[i]) < k
  }

  /** The sources are listed in the fixed order. */
  lemma PresentSourcesOrdered(r: AnalysisRequest)
    ensures InRankOrder(PresentSources(r))
  {
    var s1 := IfPresent(r, Transcription);
    RankStep([], r, Transcription);
    assert [] + s1 == s1;
    RankStep(s1, r, ClinicalNotes);
    var s2 := s1 + IfPresent(r, ClinicalNotes);
    RankStep(s2, r, PatientSummary);
    var s3 := s2 + IfPresent(r, PatientSummary);
    RankStep(s3, r, LabResults);
    var s4 := s3 + IfPresent(r, LabResults);
    RankStep(s4, r, PreviousDiagnosis);
  }

  /** Appending a present source ranked above everything listed keeps the list in rank order. */
  lemma RankStep(xs: seq<Source>, r: AnalysisRequest, s: Source)
    requires InRankOrder(xs) && RanksBelow(xs, SourceRank(s))
    ensures InRankOrder(xs + IfPresent(r, s)) && RanksBelow(xs + IfPresent(r, s), SourceRank(s) + 1)
  {
  }

  /** With non-negative classifier scores, the response's analysis confidence lies in `0..1`. */
  lemma AnalysisConfidenceBounded(db: seq<DiseaseInfo>, r: AnalysisRequest, m: ModelOutputs)
    requires m.transcriptionScore >= 0.0 && m.clinicalNotesScore >= 0.0 && m.patientSummaryScore >= 0.0
    requires m.labResultsScore >= 0.0
    ensures var t := FinalTally(db, r.transcription, r.clinicalNotes, r.patientSummary, r.labResults, r.previousDiagnosis, m);
      var records := MapSeq(RecordOf, Detections(db, t, AllEntities(r.transcription, r.clinicalNotes, r.patientSummary, m)));
      0.0 <= AverageConfidence(records) <= 1.0
  {
    var t := FinalTally(db, r.transcription, r.clinicalNotes, r.patientSummary, r.labResults, r.previousDiagnosis, m);
    var all := AllEntities(r.transcription, r.clinicalNotes, r.patientSummary, m);
    var ds := Detections(db, t, all);
    var records := MapSeq(RecordOf, ds);
    FinalTallyNonNegative(db, r.transcription, r.clinicalNotes, r.patientSummary, r.labResults, r.previousDiagnosis, m);
    DetectionsBounded(db, t, all);
    forall i | 0 <= i < |records|
      ensures 0.0 <= records[i].confidence <= 1.0
    {
      DetectionsScored(db, t, all, i);
    }
    AverageConfidenceBounded(records);
  }

  // ---------------------------------------------------------------------------
  // The detector

  /** `AdvancedDiseaseDetector` with its knowledge base; what its two language models return is passed in. */
  class DiseaseDetector {
    const database: seq<DiseaseInfo>

    /** `_load_disease_database`. */
    static method LoadDiseaseDatabase() returns (db: seq<DiseaseInfo>)
      ensures db == DiseaseDatabase()
    {
      db := DiseaseDatabase();
    }

    constructor()
      ensures database == DiseaseDatabase()
    {
      var db := LoadDiseaseDatabase();
      database := db;
    }

    /** `_score_diseases`, given the clinical classifier's score for the text. */
    method ScoreDiseases(t: Tally, text: string, source: Source, confidences: map<string, real>, classifierScore: real)
      returns (t': Tally)
      ensures t' == ScoreAll(t, database, Lower(text), source, confidences,
                             ClinicalConfidence(AnalyzeClinicalText(text, classifierScore)))
    {
      var textLower := Lower(text);
      var analysis := AnalyzeClinicalText(text, classifierScore);
      var clinical := if analysis.Some? then analysis.value else 0.5;
      t' := t;
      for i := 0 to |database|
        invariant t' == ScoreAll(t, database[..i], textLower, source, confidences, clinical)
      {
        ScoreAllNext(t, database, textLower, source, confidences, clinical, i);
        t' := ScoreOne(t', database[i], textLower, source, confidences, clinical);
      }
      assert database[..|database|] == database;
    }

    /** The loop of `detect_diseases` over the previous diagnoses and, for each, the knowledge base. */
    method ScorePreviousDiagnoses(t: Tally, previousDiagnosis: seq<string>) returns (t': Tally)
      ensures t' == PrevDiagnoses(t, database, previousDiagnosis)
    {
      t' := t;
      for i := 0 to |previousDiagnosis|
        invariant t' == PrevDiagnoses(t, database, previousDiagnosis[..i])
      {
        assert previousDiagnosis[..i + 1][..i] == previousDiagnosis[..i];
        var diagnosisLower := Lower(previousDiagnosis[i]);
        ghost var u := t';
        for j := 0 to |database|
          invariant t' == PrevAll(u, database[..j], diagnosisLower)
        {
          assert database[..j + 1][..j] == database[..j];
          var name := database[j].name;
          if Contains(diagnosisLower, Lower(name)) {
            var order := if name in t'.scores then t'.order else t'.order + [name];
            var scores := t'.scores[name := (if name in t'.scores then t'.scores[name] else 0.0) + 0.8];
            var mentions := t'.mentions;
            if name !in mentions {
              mentions := mentions[name := []];
            }
            mentions := mentions[name := mentions[name] + [PreviousDiagnosis]];
            assert mentions == t'.mentions[name := MentionsOf(t'.mentions, name) + [PreviousDiagnosis]];
            t' := Tally(order, scores, mentions);
          }
        }
        assert database[..|database|] == database;
      }
      assert previousDiagnosis[..|previousDiagnosis|] == previousDiagnosis;
    }

    /** The body of the loop building the detections: the disease's entry, or the defaults when it has none. */
    method MakeDetection(t: Tally, all: seq<(MedicalEntity, Source)>, item: (string, real)) returns (detection: Detection)
      ensures detection == DetectionOf(database, t, all, item)
    {
      var name := item.0;
      var info := Lookup(database, name);
      var terms := if info.Some? then info.value.keywords + info.value.relatedSymptoms else [];
      var sources := MentionsOf(t.mentions, name);
      detection := Detection(name, if info.Some? then info.value.icd10 else "Unknown",
                             if info.Some? then Some(info.value.snomed) else None,
                             Confidence(item.1), if info.Some? then info.value.severity else "medium",
                             Supporting(all, terms), sources, EvidenceSummary(|sources|));
    }

    /** The loop of `detect_diseases` building one detection per ranked item. */
    method BuildDetections(t: Tally, all: seq<(MedicalEntity, Source)>) returns (detections: seq<Detection>)
      ensures detections == Detections(database, t, all)
    {
      var ranked := Ranked(t);
      detections := [];
      for i := 0 to |ranked|
        invariant detections == MapSeq(DetectionFor(database, t, all), ranked[..i])
      {
        MapSeqSnoc(DetectionFor(database, t, all), ranked, i);
        var detection := MakeDetection(t, all, ranked[i]);
        detections := detections + [detection];
      }
      assert ranked[..|ranked|] == ranked;
    }

    /** The block of `detect_diseases` for one source with entities: extract them, keep them tagged, score with their confidences. */
    method ScoreWithEntities(t: Tally, all: seq<(MedicalEntity, Source)>, text: string, source: Source,
                             results: seq<NerResult>, classifierScore: real)
      returns (t': Tally, all': seq<(MedicalEntity, Source)>)
      ensures t' == EntityScores(database, t, text, source, results, classifierScore)
      ensures all' == all + if text == "" then [] else Tag(SourceEntities(text, results), source)
    {
      t', all' := t, all;
      if text != "" {
        var entities := ExtractEntities(text, results);
        all' := all + Tag(entities, source);
        var confidences := ConfidenceMap(entities);
        t' := ScoreDiseases(t, text, source, confidences, classifierScore);
      } else {
        assert all + [] == all;
      }
    }

    /** The scoring part of `detect_diseases`: the sources in their fixed order. */
    method ScoreSources(transcription: string, clinicalNotes: string, patientSummary: string, labResults: string,
                        previousDiagnosis: seq<string>, models: ModelOutputs)
      returns (t: Tally, allEntities: seq<(MedicalEntity, Source)>)
      ensures t == FinalTally(database, transcription, clinicalNotes, patientSummary, labResults, previousDiagnosis, models)
      ensures allEntities == AllEntities(transcription, clinicalNotes, patientSummary, models)
    {
      ghost var e1 := if transcription == "" then [] else Tag(SourceEntities(transcription, models.transcriptionNer), Transcription);
      ghost var e2 := if clinicalNotes == "" then [] else Tag(SourceEntities(clinicalNotes, models.clinicalNotesNer), ClinicalNotes);
      ghost var e3 := if patientSummary == "" then [] else Tag(SourceEntities(patientSummary, models.patientSummaryNer), PatientSummary);
      allEntities := [];
      t := NoScores;
      t, allEntities := ScoreWithEntities(t, allEntities, transcription, Transcription,
                                          models.transcriptionNer, models.transcriptionScore);
      assert allEntities == e1;
      t, allEntities := ScoreWithEntities(t, allEntities, clinicalNotes, ClinicalNotes,
                                          models.clinicalNotesNer, models.clinicalNotesScore);
      assert allEntities == e1 + e2;
      t, allEntities := ScoreWithEntities(t, allEntities, patientSummary, PatientSummary,
                                          models.patientSummaryNer, models.patientSummaryScore);
      assert allEntities == e1 + e2 + e3;
      ghost var t3 := t;
      if labResults != "" {
        t := ScoreDiseases(t, labResults, LabResults, map[], models.labResultsScore);
      }
      assert t == TextScores(database, t3, labResults, LabResults, map[], models.labResultsScore);
      ghost var t4 := t;
      if previousDiagnosis != [] {
        t := ScorePreviousDiagnoses(t, previousDiagnosis);
      }
      assert t == PrevDiagnoses(t4, database, previousDiagnosis);
    }

    /** `detect_diseases`, given what the language models return. */
    method DetectDiseases(transcription: string, clinicalNotes: string, patientSummary: string, labResults: string,
                          previousDiagnosis: seq<string>, models: ModelOutputs)
      returns (detections: seq<Detection>, formattedEntities: seq<EntityRecord>)
      ensures detections == Detections(database, FinalTally(database, transcription, clinicalNotes, patientSummary,
                                                             labResults, previousDiagnosis, models),
                                        AllEntities(transcription, clinicalNotes, patientSummary, models))
      ensures formattedEntities == FormattedEntities(AllEntities(transcription, clinicalNotes, patientSummary, models))
    {
      var t, allEntities := ScoreSources(transcription, clinicalNotes, patientSummary, labResults, previousDiagnosis, models);
      detections := BuildDetections(t, allEntities);
      formattedEntities := FormattedEntities(allEntities);
    }

    /** The appends of `analyze_transcript` that list the sources analysed. */
    static method SourcesAnalyzed(request: AnalysisRequest) returns (sources: seq<Source>)
      ensures sources == PresentSources(request)
    {
      sources := [];
      if request.transcription != "" {
        sources := sources + [Transcription];
      }
      assert sources == IfPresent(request, Transcription);
      ghost var s1 := sources;
      if request.clinicalNotes != "" {
        sources := sources + [ClinicalNotes];
      } else {
        assert sources + [] == sources;
      }
      assert sources == s1 + IfPresent(request, ClinicalNotes);
      ghost var s2 := sources;
      if request.patientSummary != "" {
        sources := sources + [PatientSummary];
      } else {
        assert sources + [] == sources;
      }
      assert sources == s2 + IfPresent(request, PatientSummary);
      ghost var s3 := sources;
      if request.labResults != "" {
        sources := sources + [LabResults];
      } else {
        assert sources + [] == sources;
      }
      assert sources == s3 + IfPresent(request, LabResults);
      ghost var s4 := sources;
      if request.previousDiagnosis != [] {
        sources := sources + [PreviousDiagnosis];
      } else {
        assert sources + [] == sources;
      }
      assert sources == s4 + IfPresent(request, PreviousDiagnosis);
    }

    /** `analyze_transcript`, given what the language models return and the time of the response. */
    method AnalyzeTranscript(request: AnalysisRequest, models: ModelOutputs, timestamp: string)
      returns (response: AnalysisResponse)
      ensures var records := MapSeq(RecordOf, Detections(database,
                FinalTally(database, request.transcription, request.clinicalNotes, request.patientSummary,
                           request.labResults, request.previousDiagnosis, models),
                AllEntities(request.transcription, request.clinicalNotes, request.patientSummary, models)));
        response == AnalysisResponse(request.sessionId, records,
                                     FormattedEntities(AllEntities(request.transcription, request.clinicalNotes,
                                                                   request.patientSummary, models)),
                                     timestamp, AverageConfidence(records), MapSeq(SourceValue, PresentSources(request)))
    {
      var detections, entities := DetectDiseases(request.transcription, request.clinicalNotes, request.patientSummary,
                                                 request.labResults, request.previousDiagnosis, models);
      var records := MapSeq(RecordOf, detections);
      var avg := AverageConfidence(records);
      var sources := SourcesAnalyzed(request);
      response := AnalysisResponse(request.sessionId, records, entities, timestamp, avg, MapSeq(SourceValue, sources));
    }
  }
}
