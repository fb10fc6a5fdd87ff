/**
  The rule engine of the clinical recommendation service
  (`ClinicalRecommendationService` in services/recommendations/main.py):
  guideline, laboratory, medication, lifestyle and follow-up rules keyed by
  ICD-10 code, the pairwise drug-interaction check, the parser for
  `CATEGORY:/RECOMMENDATION:/RATIONALE:/PRIORITY:` blocks returned by the
  language model, and the deduplicating, priority-sorting final step.
 */
module Recommendations {
  import opened Wrappers
  import opened Text
  import opened StableSort
  import opened Seqs

  // ---------------------------------------------------------------------------
  // Data model

  /** `ClinicalRecommendation`. */
  datatype Recommendation = Recommendation(
    category: string,
    recommendation: string,
    rationale: string,
    evidenceLevel: string,
    priority: string,
    contraindications: seq<string>,
    alternatives: seq<string>)

  /** `DrugInteraction`. */
  datatype DrugInteraction = DrugInteraction(
    drug1: string, drug2: string, severity: string, description: string, management: string)

  /** One entry of a condition's `guidelines` list. */
  datatype Guideline = Guideline(recommendation: string, category: string, evidenceLevel: string, source: string)

  /** The value stored under an ICD-10 code in the guideline table. */
  datatype ConditionGuidelines = ConditionGuidelines(
    guidelines: seq<Guideline>, lifestyleModifications: seq<string>, monitoring: seq<string>)

  /** The value stored under a drug pair in the interaction table. */
  datatype InteractionInfo = InteractionInfo(severity: string, description: string, management: string)

  /** A detected disease as the request carries it; only its `icd10_code` key is read, and it may be missing. */
  datatype Diagnosis = Diagnosis(diseaseName: string, icd10Code: Option<string>)

  // ---------------------------------------------------------------------------
  // Knowledge tables

  /** `_load_clinical_guidelines`. */
  function ClinicalGuidelines(): map<string, ConditionGuidelines>
  {
    map[
      "E11.9" := ConditionGuidelines(
        [ Guideline("HbA1c testing every 3-6 months", "LAB_TEST", "A", "ADA Standards of Medical Care 2024"),
          Guideline("Metformin as first-line therapy", "MEDICATION", "A", "ADA/EASD Consensus Report"),
          Guideline("Annual comprehensive foot examination", "SCREENING", "B", "ADA Standards"),
          Guideline("Target HbA1c <7% for most adults", "TARGET", "A", "ADA Standards") ],
        [ "Medical nutrition therapy", "Physical activity (150 min/week)", "Weight management", "Smoking cessation" ],
        [ "HbA1c every 3-6 months", "Annual lipid panel", "Annual microalbuminuria", "Annual dilated eye exam" ]),
      "I10" := ConditionGuidelines(
        [ Guideline("Target BP <130/80 mmHg", "TARGET", "A", "ACC/AHA 2017"),
          Guideline("Lifestyle modifications for all", "LIFESTYLE", "A", "JNC 8"),
          Guideline("ACE inhibitor or ARB as first-line", "MEDICATION", "A", "ACC/AHA Guidelines") ],
        [ "DASH diet", "Sodium restriction (<2g/day)", "Regular aerobic exercise", "Weight loss if overweight", "Limit alcohol" ],
        [ "BP checks every 3-6 months", "Annual renal function", "Annual electrolytes", "Cardiovascular risk assessment" ]),
      "J45.9" := ConditionGuidelines(
        [ Guideline("Inhaled corticosteroids as controller", "MEDICATION", "A", "GINA Guidelines 2024"),
          Guideline("Short-acting beta-agonist for rescue", "MEDICATION", "A", "GINA Guidelines"),
          Guideline("Spirometry at diagnosis and periodically", "LAB_TEST", "B", "NHLBI Guidelines") ],
        [ "Identify and avoid triggers", "Smoking cessation", "Influenza vaccination" ],
        [ "Asthma Control Test quarterly", "Spirometry annually", "Peak flow monitoring" ])
    ]
  }

  /** `_load_drug_interactions`: keyed by an ordered pair of normalised names. */
  function DrugInteractionsDb(): map<(string, string), InteractionInfo>
  {
    map[
      ("warfarin", "aspirin") := InteractionInfo("MAJOR", "Increased risk of bleeding", "Monitor INR closely, consider dose adjustment"),
      ("metformin", "contrast dye") := InteractionInfo("MAJOR", "Risk of lactic acidosis with contrast", "Hold metformin 48 hours before and after contrast"),
      ("lisinopril", "potassium") := InteractionInfo("MODERATE", "Risk of hyperkalemia", "Monitor potassium levels regularly"),
      ("simvastatin", "amlodipine") := InteractionInfo("MODERATE", "Increased risk of myopathy", "Limit simvastatin dose to 20mg"),
      ("warfarin", "amiodarone") := InteractionInfo("MAJOR", "Significantly increased INR", "Reduce warfarin dose by 30-50%, monitor INR closely")
    ]
  }

  /** `_load_lab_recommendations`: symptom phrase to laboratory tests. */
  function LabRecommendationsTable(): seq<(string, seq<string>)>
  {
    [
      ("chest pain", [ "Troponin (serial)", "ECG", "Complete blood count", "Basic metabolic panel", "Lipid panel", "D-dimer (if PE suspected)" ]),
      ("shortness of breath", [ "Chest X-ray", "BNP or NT-proBNP", "Arterial blood gas", "D-dimer", "Pulmonary function tests" ]),
      ("fatigue", [ "Complete blood count", "Thyroid function tests", "Basic metabolic panel", "Vitamin B12 and folate", "Iron studies", "Fasting glucose" ]),
      ("fever", [ "Complete blood count", "Blood cultures", "Urinalysis and culture", "Chest X-ray", "Inflammatory markers (CRP, ESR)" ])
    ]
  }

  /** The symptom phrases `_extract_symptoms_from_text` looks for, in its order. */
  function SymptomKeywords(): seq<string>
  {
    [ "pain", "ache", "fever", "cough", "nausea", "vomiting", "diarrhea",
      "headache", "dizziness", "fatigue", "weakness", "shortness of breath",
      "chest pain", "abdominal pain" ]
  }

  // ---------------------------------------------------------------------------
  // Extraction from the transcript

  /** The members of `keywords` that occur in `text`, in keyword order. */
  function KeywordsIn(keywords: seq<string>, text: string): (r: seq<string>)
    ensures |r| <= |keywords|
    ensures forall s :: s in r <==> s in keywords && Contains(text, s)
  {
    if keywords == [] then []
    else
      var prev := KeywordsIn(keywords[..|keywords| - 1], text);
      var k := keywords[|keywords| - 1];
      assert keywords == keywords[..|keywords| - 1] + [k];
      if Contains(text, k) then prev + [k] else prev
  }

  /** The keywords found keep the order of the keyword list. */
  lemma {:induction false} KeywordsInOrder(keywords: seq<string>, text: string)
    ensures IsSubsequence(KeywordsIn(keywords, text), keywords)
    decreases |keywords|
  {
    if keywords != [] {
      var n := |keywords| - 1;
      var prev := KeywordsIn(keywords[..n], text);
      KeywordsInOrder(keywords[..n], text);
      if Contains(text, keywords[n]) {
        assert (prev + [keywords[n]])[..|prev|] == prev;
      }
    }
  }

  // ---------------------------------------------------------------------------
  // Rules driven by the ICD-10 table

  /** The table entry for a diagnosis, when its code is present and in the table. */
  function ConditionOf(guidelines: map<string, ConditionGuidelines>, d: Diagnosis): Option<ConditionGuidelines>
  {
    if d.icd10Code.Some? && d.icd10Code.value in guidelines then Some(guidelines[d.icd10Code.value]) else None
  }

  function GuidelinesOf(guidelines: map<string, ConditionGuidelines>, d: Diagnosis): seq<Guideline>
  {
    if ConditionOf(guidelines, d).Some? then ConditionOf(guidelines, d).value.guidelines else []
  }

  /** The recommendation `_get_guideline_recommendations` makes of one guideline. */
  function GuidelineRec(g: Guideline): (r: Recommendation)
    ensures r.priority == "HIGH" <==> g.evidenceLevel == "A"
    ensures r.priority == "HIGH" || r.priority == "MEDIUM"
    ensures r.category == g.category && r.recommendation == g.recommendation
    ensures r.evidenceLevel == g.evidenceLevel
  {
    Recommendation(g.category, g.recommendation, "Based on " + g.source, g.evidenceLevel,
      if g.evidenceLevel == "A" then "HIGH" else "MEDIUM", [], [])
  }

  /** `GuidelineRec` of each guideline, in order. */
  function GuidelineRecsOf(gs: seq<Guideline>): (r: seq<Recommendation>)
    ensures |r| == |gs|
    ensures forall i :: 0 <= i < |gs| ==> r[i] == GuidelineRec(gs[i])
  {
    if gs == [] then [] else GuidelineRecsOf(gs[..|gs| - 1]) + [GuidelineRec(gs[|gs| - 1])]
  }

  /** What `_get_guideline_recommendations` returns. */
  function GuidelineRecs(guidelines: map<string, ConditionGuidelines>, ds: seq<Diagnosis>): (r: seq<Recommendation>)
    ensures forall x :: x in r ==> (x.priority == "HIGH" <==> x.evidenceLevel == "A")
    ensures forall x :: x in r ==> exists d, g :: d in ds && g in GuidelinesOf(guidelines, d) && x == GuidelineRec(g)
  {
    if ds == [] then []
    else
      var d := ds[|ds| - 1];
      var last := GuidelineRecsOf(GuidelinesOf(guidelines, d));
      assert forall x :: x in last ==> exists i :: 0 <= i < |last| && x == GuidelineRec(GuidelinesOf(guidelines, d)[i]);
      assert ds == ds[..|ds| - 1] + [d];
      GuidelineRecs(guidelines, ds[..|ds| - 1]) + last
  }

  /** The list comprehension selecting medication guidelines. */
  function MedicationGuidelines(gs: seq<Guideline>): (r: seq<Guideline>)
    ensures |r| <= |gs|
    ensures forall g :: g in r <==> g in gs && g.category == "MEDICATION"
  {
    if gs == [] then []
    else
      var g := gs[|gs| - 1];
      assert gs == gs[..|gs| - 1] + [g];
      MedicationGuidelines(gs[..|gs| - 1]) + (if g.category == "MEDICATION" then [g] else [])
  }

  /** The recommendation `_get_medication_recommendations` makes of one medication guideline. */
  function MedicationRec(g: Guideline): Recommendation
  {
    Recommendation("MEDICATION", g.recommendation, "First-line therapy per " + g.source, g.evidenceLevel, "HIGH", [], [])
  }

  function MedicationRecsOf(gs: seq<Guideline>): (r: seq<Recommendation>)
    ensures |r| == |gs|
    ensures forall i :: 0 <= i < |gs| ==> r[i] == MedicationRec(gs[i])
  {
    if gs == [] then [] else MedicationRecsOf(gs[..|gs| - 1]) + [MedicationRec(gs[|gs| - 1])]
  }

  /** What `_get_medication_recommendations` returns. */
  function MedicationRecs(guidelines: map<string, ConditionGuidelines>, ds: seq<Diagnosis>): (r: seq<Recommendation>)
    ensures forall x :: x in r ==> x.category == "MEDICATION" && x.priority == "HIGH"
    ensures forall x :: x in r ==>
      exists d, g :: d in ds && g in GuidelinesOf(guidelines, d) && g.category == "MEDICATION" && x == MedicationRec(g)
  {
    if ds == [] then []
    else
      var d := ds[|ds| - 1];
      var meds := MedicationGuidelines(GuidelinesOf(guidelines, d));
      var last := MedicationRecsOf(meds);
      assert forall x :: x in last ==> exists i :: 0 <= i < |meds| && x == MedicationRec(meds[i]);
      assert ds == ds[..|ds| - 1] + [d];
      MedicationRecs(guidelines, ds[..|ds| - 1]) + last
  }

  // --- Laboratory tests and lifestyle changes, collected into sets

  /** `key in symptom_lower or symptom_lower in key`. */
  predicate LabKeyMatches(key: string, symptomLower: string)
  {
    Contains(symptomLower, key) || Contains(key, symptomLower)
  }

  /** The labs of the table rows whose key matches `symptomLower`. */
  function MatchingLabs(rows: seq<(string, seq<string>)>, symptomLower: string): (r: set<string>)
    ensures forall lab :: lab in r <==>
      exists i :: 0 <= i < |rows| && LabKeyMatches(rows[i].0, symptomLower) && lab in rows[i].1
  {
    if rows == [] then {}
    else
      var row := rows[|rows| - 1];
      var prev := rows[..|rows| - 1];
      assert forall i :: 0 <= i < |prev| ==> prev[i] == rows[i];
      MatchingLabs(prev, symptomLower) + (if LabKeyMatches(row.0, symptomLower) then set lab | lab in row.1 else {})
  }

  /** The labs chosen for the symptoms. */
  function SymptomLabs(rows: seq<(string, seq<string>)>, symptoms: seq<string>): (r: set<string>)
    ensures forall lab :: lab in r <==> exists s :: s in symptoms && lab in MatchingLabs(rows, Lower(s))
  {
    if symptoms == [] then {}
    else
      var s := symptoms[|symptoms| - 1];
      assert symptoms == symptoms[..|symptoms| - 1] + [s];
      SymptomLabs(rows, symptoms[..|symptoms| - 1]) + MatchingLabs(rows, Lower(s))
  }

  function MonitoringOf(guidelines: map<string, ConditionGuidelines>, d: Diagnosis): seq<string>
  {
    if ConditionOf(guidelines, d).Some? then ConditionOf(guidelines, d).value.monitoring else []
  }

  /** The monitoring items of the diagnoses' table entries. */
  function MonitoringLabs(guidelines: map<string, ConditionGuidelines>, ds: seq<Diagnosis>): (r: set<string>)
    ensures forall lab :: lab in r <==> exists d :: d in ds && lab in MonitoringOf(guidelines, d)
  {
    if ds == [] then {}
    else
      var d := ds[|ds| - 1];
      assert ds == ds[..|ds| - 1] + [d];
      MonitoringLabs(guidelines, ds[..|ds| - 1]) + set lab | lab in MonitoringOf(guidelines, d)
  }

  /** `recommended_labs` of `_get_lab_recommendations`. */
  function LabsFor(rows: seq<(string, seq<string>)>, guidelines: map<string, ConditionGuidelines>,
                   symptoms: seq<string>, ds: seq<Diagnosis>): set<string>
  {
    SymptomLabs(rows, symptoms) + MonitoringLabs(guidelines, ds)
  }

  function LifestyleOf(guidelines: map<string, ConditionGuidelines>, d: Diagnosis): seq<string>
  {
    if ConditionOf(guidelines, d).Some? then ConditionOf(guidelines, d).value.lifestyleModifications else []
  }

  /** `lifestyle_mods` of `_get_lifestyle_recommendations`. */
  function LifestyleFor(guidelines: map<string, ConditionGuidelines>, ds: seq<Diagnosis>): (r: set<string>)
    ensures forall m :: m in r <==> exists d :: d in ds && m in LifestyleOf(guidelines, d)
  {
    if ds == [] then {}
    else
      var d := ds[|ds| - 1];
      assert ds == ds[..|ds| - 1] + [d];
      LifestyleFor(guidelines, ds[..|ds| - 1]) + set m | m in LifestyleOf(guidelines, d)
  }

  /** Which recommendation is made of each member of a collected set. */
  datatype SetRule = LabRule | LifestyleRule

  function SetRec(rule: SetRule, item: string): Recommendation
  {
    match rule
    case LabRule =>
      Recommendation("LAB_TEST", "Order " + item, "Appropriate workup based on presentation", "B", "MEDIUM", [], [])
    case LifestyleRule =>
      Recommendation("LIFESTYLE", item, "Evidence-based lifestyle modification", "A", "MEDIUM", [], [])
  }

  lemma SetRecInjective(rule: SetRule, a: string, b: string)
    requires SetRec(rule, a) == SetRec(rule, b)
    ensures a == b
  {
    if rule == LabRule {
      assert a == SetRec(rule, a).recommendation[6..];
      assert b == SetRec(rule, b).recommendation[6..];
    }
  }

  /** `recs` holds exactly one recommendation per member of `items`, in some order. */
  ghost predicate ListsSet(recs: seq<Recommendation>, items: set<string>, rule: SetRule)
  {
    && |recs| == |items|
    && (forall x :: x in items <==> SetRec(rule, x) in recs)
    && (forall r :: r in recs ==> exists x :: x in items && r == SetRec(rule, x))
  }

  /** The recommendation of each member of `order`, in order. */
  function SetRecsOf(rule: SetRule, order: seq<string>): (r: seq<Recommendation>)
    ensures |r| == |order|
  {
    if order == [] then [] else SetRecsOf(rule, order[..|order| - 1]) + [SetRec(rule, order[|order| - 1])]
  }

  lemma {:induction false} SetRecsOfAt(rule: SetRule, order: seq<string>, i: nat)
    requires i < |order|
    ensures SetRecsOf(rule, order)[i] == SetRec(rule, order[i])
  {
    if i < |order| - 1 {
      SetRecsOfAt(rule, order[..|order| - 1], i);
    }
  }

  lemma SetRecsOfAppend(rule: SetRule, order: seq<string>, item: string)
    ensures SetRecsOf(rule, order + [item]) == SetRecsOf(rule, order) + [SetRec(rule, item)]
  {
    assert (order + [item])[..|order|] == order;
  }

  /** Moving one member from `rest` to the end of `order` keeps `order` an enumeration of `items - rest`. */
  lemma EnumerationStep(items: set<string>, rest: set<string>, order: seq<string>, item: string)
    requires rest <= items && item in rest
    requires |order| == |items - rest| && forall x :: x in order <==> x in items && x !in rest
    ensures rest - {item} <= items
    ensures |order + [item]| == |items - (rest - {item})|
    ensures forall x :: x in order + [item] <==> x in items && x !in rest - {item}
  {
    assert items - (rest - {item}) == (items - rest) + {item};
  }

  /** Listing an enumeration of `items` (no member twice) lists the set. */
  lemma SetRecsOfLists(rule: SetRule, order: seq<string>, items: set<string>)
    requires |order| == |items| && forall x :: x in order <==> x in items
    ensures ListsSet(SetRecsOf(rule, order), items, rule)
  {
    var recs := SetRecsOf(rule, order);
    forall x ensures x in items <==> SetRec(rule, x) in recs {
      if x in items {
        var i :| 0 <= i < |order| && order[i] == x;
        SetRecsOfAt(rule, order, i);
      }
      if SetRec(rule, x) in recs {
        var i :| 0 <= i < |recs| && recs[i] == SetRec(rule, x);
        SetRecsOfAt(rule, order, i);
        SetRecInjective(rule, x, order[i]);
        assert order[i] in order;
      }
    }
    forall r | r in recs ensures exists x :: x in items && r == SetRec(rule, x) {
      var i :| 0 <= i < |recs| && recs[i] == r;
      SetRecsOfAt(rule, order, i);
      assert order[i] in order;
    }
  }

  /** The default follow-up of `_get_followup_recommendations`. */
  function FollowUpRec(): Recommendation
  {
    Recommendation("FOLLOW_UP", "Schedule follow-up visit in 2-4 weeks",
      "Monitor treatment response and adjust therapy", "C", "MEDIUM", [], [])
  }

  /** `_get_followup_recommendations`: the same single follow-up whatever the diagnoses. */
  function FollowUpRecommendations(ds: seq<Diagnosis>): (r: seq<Recommendation>)
    ensures |r| == 1 && r[0].category == "FOLLOW_UP" && r[0].priority == "MEDIUM" && r[0].evidenceLevel == "C"
  {
    [FollowUpRec()]
  }

  // ---------------------------------------------------------------------------
  // Drug interactions

  /** `med.lower().strip()`. */
  function Normalize(med: string): string
  {
    Strip(Lower(med))
  }

  /** The normalised name of each medication. */
  function NormalizeAll(meds: seq<string>): seq<string>
  {
    seq(|meds|, k requires 0 <= k < |meds| => Normalize(meds[k]))
  }

  /**
    `db.get(key1) or db.get(key2)` on a pair of normalised names; every stored
    entry is a non-empty dict, so `or` falls back exactly when the first lookup misses.
   */
  function LookupInteraction(db: map<(string, string), InteractionInfo>, norm1: string, norm2: string)
    : (r: Option<InteractionInfo>)
    ensures r.Some? <==> (norm1, norm2) in db || (norm2, norm1) in db
    ensures (norm1, norm2) in db ==> r == Some(db[(norm1, norm2)])
    ensures (norm1, norm2) !in db && (norm2, norm1) in db ==> r == Some(db[(norm2, norm1)])
  {
    if (norm1, norm2) in db then Some(db[(norm1, norm2)])
    else if (norm2, norm1) in db then Some(db[(norm2, norm1)])
    else None
  }

  /** No pair is stored in both orders. */
  predicate NoReversedPairs(db: map<(string, string), InteractionInfo>)
  {
    forall p :: p in db ==> (p.1, p.0) !in db
  }

  lemma InteractionsDbHasNoReversedPairs()
    ensures NoReversedPairs(DrugInteractionsDb())
  {
  }

  /** With no pair stored in both orders, the lookup does not depend on the order of the two names. */
  lemma LookupSymmetric(db: map<(string, string), InteractionInfo>, norm1: string, norm2: string)
    requires NoReversedPairs(db)
    ensures LookupInteraction(db, norm1, norm2) == LookupInteraction(db, norm2, norm1)
  {
    if (norm1, norm2) in db {
      assert (norm2, norm1) !in db;
    }
  }

  /** The interaction reported for the medications at positions `i` and `k`, under the names as given. */
  function InteractionAt(db: map<(string, string), InteractionInfo>, meds: seq<string>, norms: seq<string>,
                         i: nat, k: nat): (r: Option<DrugInteraction>)
    requires i < |meds| && k < |meds| && |norms| == |meds|
    ensures r.Some? <==> LookupInteraction(db, norms[i], norms[k]).Some?
    ensures r.Some? ==> r.value.drug1 == meds[i] && r.value.drug2 == meds[k]
    ensures r.Some? ==> r.value.severity == LookupInteraction(db, norms[i], norms[k]).value.severity
  {
    match LookupInteraction(db, norms[i], norms[k])
    case None => None
    case Some(info) => Some(DrugInteraction(meds[i], meds[k], info.severity, info.description, info.management))
  }

  /** The interactions of `meds[i]` with `meds[i+1..j]`, in index order. */
  function RowInteractions(db: map<(string, string), InteractionInfo>, meds: seq<string>, norms: seq<string>,
                           i: nat, j: nat): (r: seq<DrugInteraction>)
    requires i < |meds| && j <= |meds| && |norms| == |meds|
    ensures |r| <= if j <= i then 0 else j - i - 1
    decreases j
  {
    if j <= i + 1 then []
    else
      var prev := RowInteractions(db, meds, norms, i, j - 1);
      match InteractionAt(db, meds, norms, i, j - 1)
      case None => prev
      case Some(x) => prev + [x]
  }

  /** The interactions found in rows `0..n-1`: each pair `i < j` once, in index order. */
  function PairInteractions(db: map<(string, string), InteractionInfo>, meds: seq<string>, norms: seq<string>,
                            n: nat): seq<DrugInteraction>
    requires n <= |meds| && |norms| == |meds|
  {
    if n == 0 then [] else PairInteractions(db, meds, norms, n - 1) + RowInteractions(db, meds, norms, n - 1, |meds|)
  }

  /** What `_check_drug_interactions` returns. */
  function Interactions(db: map<(string, string), InteractionInfo>, meds: seq<string>): seq<DrugInteraction>
  {
    PairInteractions(db, meds, NormalizeAll(meds), |meds|)
  }

  /** What the inner loop body of `_check_drug_interactions` appends for one pair of medications. */
  function PairFound(db: map<(string, string), InteractionInfo>, med1: string, med2: string,
                     norm1: string, norm2: string): (r: seq<DrugInteraction>)
    ensures |r| <= 1
  {
    if (norm1, norm2) in db || (norm2, norm1) in db then
      var data := if (norm1, norm2) in db then db[(norm1, norm2)] else db[(norm2, norm1)];
      [DrugInteraction(med1, med2, data.severity, data.description, data.management)]
    else []
  }

  /** One more column of a row: the interaction with `meds[j]`, if any, comes last. */
  lemma RowInteractionsStep(db: map<(string, string), InteractionInfo>, meds: seq<string>, norms: seq<string>,
                            i: nat, j: nat)
    requires i < j < |meds| && |norms| == |meds|
    ensures RowInteractions(db, meds, norms, i, j + 1)
      == RowInteractions(db, meds, norms, i, j) + PairFound(db, meds[i], meds[j], norms[i], norms[j])
  {
  }

  /** A row holds exactly the interactions of `meds[i]` with the later medications before `j`. */
  lemma {:induction false} RowInteractionsMembers(db: map<(string, string), InteractionInfo>, meds: seq<string>,
                                                  norms: seq<string>, i: nat, j: nat, x: DrugInteraction)
    requires i < |meds| && j <= |meds| && |norms| == |meds|
    ensures x in RowInteractions(db, meds, norms, i, j) <==>
      exists k :: i < k < j && InteractionAt(db, meds, norms, i, k) == Some(x)
    decreases j
  {
    if j > i + 1 {
      var prev := RowInteractions(db, meds, norms, i, j - 1);
      var here := InteractionAt(db, meds, norms, i, j - 1);
      RowInteractionsMembers(db, meds, norms, i, j - 1, x);
      assert RowInteractions(db, meds, norms, i, j) == if here.Some? then prev + [here.value] else prev;
      if x in RowInteractions(db, meds, norms, i, j) && x !in prev {
        assert here == Some(x);
      }
      if k :| i < k < j && InteractionAt(db, meds, norms, i, k) == Some(x) {
        if k == j - 1 {
          assert here == Some(x);
        }
      }
    }
  }

  /**
    The interaction check reports exactly the interactions of the pairs
    `i < j` of the list (rows `0..n-1`), under the names as given.
   */
  lemma {:induction false} PairInteractionsMembers(db: map<(string, string), InteractionInfo>, meds: seq<string>,
                                                   norms: seq<string>, n: nat, x: DrugInteraction)
    requires n <= |meds| && |norms| == |meds|
    ensures x in PairInteractions(db, meds, norms, n) <==>
      exists i, j :: 0 <= i < n && i < j < |meds| && InteractionAt(db, meds, norms, i, j) == Some(x)
  {
    if n > 0 {
      var prev := PairInteractions(db, meds, norms, n - 1);
      var row := RowInteractions(db, meds, norms, n - 1, |meds|);
      PairInteractionsMembers(db, meds, norms, n - 1, x);
      RowInteractionsMembers(db, meds, norms, n - 1, |meds|, x);
      assert PairInteractions(db, meds, norms, n) == prev + row;
      if x in row {
        var k :| n - 1 < k < |meds| && InteractionAt(db, meds, norms, n - 1, k) == Some(x);
        assert 0 <= n - 1 < n && n - 1 < k < |meds|;
      }
      if i, j :| 0 <= i < n && i < j < |meds| && InteractionAt(db, meds, norms, i, j) == Some(x) {
        if i == n - 1 {
          assert x in row;
        } else {
          assert x in prev;
        }
      }
    }
  }

  /** At most one interaction per unordered pair is reported. */
  lemma {:induction false} PairInteractionsCount(db: map<(string, string), InteractionInfo>, meds: seq<string>,
                                                 norms: seq<string>, n: nat)
    requires n <= |meds| && |norms| == |meds|
    ensures 2 * |PairInteractions(db, meds, norms, n)| <= n * (2 * |meds| - n - 1)
  {
    if n > 0 {
      PairInteractionsCount(db, meds, norms, n - 1);
      var m := |meds|;
      assert |RowInteractions(db, meds, norms, n - 1, m)| <= m - n;
      assert (n - 1) * (2 * m - (n - 1) - 1) + 2 * (m - n) == n * (2 * m - n - 1);
    }
  }

  /** The recommendation `_create_interaction_recommendations` makes of one interaction. */
  function InteractionRec(x: DrugInteraction): (r: Recommendation)
    ensures r.priority == "HIGH" <==> x.severity == "MAJOR"
    ensures r.priority == "HIGH" || r.priority == "MEDIUM"
    ensures r.category == "DRUG_INTERACTION" && r.evidenceLevel == "A"
  {
    Recommendation("DRUG_INTERACTION",
      "Monitor interaction between " + x.drug1 + " and " + x.drug2,
      x.description + ". " + x.management, "A",
      if x.severity == "MAJOR" then "HIGH" else "MEDIUM", [], [])
  }

  function InteractionRecs(xs: seq<DrugInteraction>): (r: seq<Recommendation>)
    ensures |r| == |xs|
    ensures forall i :: 0 <= i < |xs| ==> r[i] == InteractionRec(xs[i])
  {
    if xs == [] then [] else InteractionRecs(xs[..|xs| - 1]) + [InteractionRec(xs[|xs| - 1])]
  }

  // ---------------------------------------------------------------------------
  // Parsing the language model's `CATEGORY:` blocks

  /** `_create_recommendation_from_dict`: missing keys take their defaults, and evidence is always C. */
  function FromDict(data: map<string, string>): (r: Recommendation)
    ensures r.evidenceLevel == "C" && r.contraindications == [] && r.alternatives == []
    ensures "category" !in data ==> r.category == "OTHER"
    ensures "recommendation" !in data ==> r.recommendation == ""
    ensures "rationale" !in data ==> r.rationale == ""
    ensures "priority" !in data ==> r.priority == "MEDIUM"
  {
    Recommendation(
      if "category" in data then data["category"] else "OTHER",
      if "recommendation" in data then data["recommendation"] else "",
      if "rationale" in data then data["rationale"] else "",
      "C",
      if "priority" in data then data["priority"] else "MEDIUM",
      [], [])
  }

  /** What one response line means to the parser. */
  datatype LineKind =
    | CategoryLine(value: string)
    | FieldLine(key: string, value: string)
    | OtherLine

  /** `line.split(':', 1)[1].strip()` for a line known to hold a `:`. */
  function FieldValue(line: string): string
  {
    Strip(AfterFirst(line, ':'))
  }

  /** The prefix tests of the loop body, on the stripped line, in the source's order. */
  function Classify(raw: string): LineKind
  {
    var line := Strip(raw);
    if "CATEGORY:" <= line then CategoryLine(FieldValue(line))
    else if "RECOMMENDATION:" <= line then FieldLine("recommendation", FieldValue(line))
    else if "RATIONALE:" <= line then FieldLine("rationale", FieldValue(line))
    else if "PRIORITY:" <= line then FieldLine("priority", FieldValue(line))
    else OtherLine
  }

  function ClassifyAll(lines: seq<string>): (r: seq<LineKind>)
    ensures |r| == |lines|
    ensures forall i :: 0 <= i < |lines| ==> r[i] == Classify(lines[i])
  {
    MapSeq(Classify, lines)
  }

  /** The parser between two lines: the records so far and `current_rec`. */
  datatype ParseState = ParseState(recs: seq<Recommendation>, current: map<string, string>)

  const Start := ParseState([], map[])

  /** `if current_rec: recommendations.append(...)`. */
  function Flush(st: ParseState): seq<Recommendation>
  {
    if st.current != map[] then st.recs + [FromDict(st.current)] else st.recs
  }

  /** One iteration of the loop of `_parse_ai_recommendations`. */
  function Apply(st: ParseState, k: LineKind): ParseState
  {
    match k
    case CategoryLine(v) => ParseState(Flush(st), map["category" := v])
    case FieldLine(key, v) => ParseState(st.recs, st.current[key := v])
    case OtherLine => st
  }

  /** The parser's state after the classified lines `ks`, starting from `st`. */
  function ApplyAll(st: ParseState, ks: seq<LineKind>): ParseState
  {
    if ks == [] then st else Apply(ApplyAll(st, ks[..|ks| - 1]), ks[|ks| - 1])
  }

  /** The parser's state after one more line. */
  lemma ApplyAllNext(lines: seq<string>, i: nat)
    requires i < |lines|
    ensures ApplyAll(Start, ClassifyAll(lines[..i + 1])) == Apply(ApplyAll(Start, ClassifyAll(lines[..i])), Classify(lines[i]))
  {
    var ks := ClassifyAll(lines[..i + 1]);
    assert ks[..i] == ClassifyAll(lines[..i]);
  }

  /** What `_parse_ai_recommendations` returns. */
  function ParseAi(response: string): seq<Recommendation>
  {
    Flush(ApplyAll(Start, ClassifyAll(Split(response, '\n'))))
  }

  // --- Every parsed record has evidence C

  lemma {:induction false} ApplyAllEvidence(ks: seq<LineKind>)
    ensures forall r :: r in ApplyAll(Start, ks).recs ==>
      r.evidenceLevel == "C" && r.contraindications == [] && r.alternatives == []
  {
    if ks != [] {
      ApplyAllEvidence(ks[..|ks| - 1]);
    }
  }

  /** Records from the language model all carry evidence level C and no contraindications or alternatives. */
  lemma ParseAiEvidence(response: string)
    ensures forall r :: r in ParseAi(response) ==>
      r.evidenceLevel == "C" && r.contraindications == [] && r.alternatives == []
  {
    ApplyAllEvidence(ClassifyAll(Split(response, '\n')));
  }

  // --- How many records come out

  function CategoryLines(ks: seq<LineKind>): nat
  {
    if ks == [] then 0
    else CategoryLines(ks[..|ks| - 1]) + if ks[|ks| - 1].CategoryLine? then 1 else 0
  }

  /** Some field line comes before the first `CATEGORY:` line. */
  predicate HasStrayFields(ks: seq<LineKind>)
  {
    if ks == [] then false
    else
      var prev := ks[..|ks| - 1];
      HasStrayFields(prev) || (CategoryLines(prev) == 0 && ks[|ks| - 1].FieldLine?)
  }

  lemma {:induction false} ApplyAllCount(ks: seq<LineKind>)
    ensures ApplyAll(Start, ks).current != map[] <==> CategoryLines(ks) > 0 || HasStrayFields(ks)
    ensures |ApplyAll(Start, ks).recs| ==
      if CategoryLines(ks) == 0 then 0 else CategoryLines(ks) - 1 + if HasStrayFields(ks) then 1 else 0
  {
    if ks != [] {
      var prev, k := ks[..|ks| - 1], ks[|ks| - 1];
      ApplyAllCount(prev);
      var st := ApplyAll(Start, prev);
      assert ApplyAll(Start, ks) == Apply(st, k);
      match k
      case CategoryLine(v) =>
        assert "category" in Apply(st, k).current;
        assert |Flush(st)| == |st.recs| + if st.current != map[] then 1 else 0;
      case FieldLine(key, v) =>
        assert key in Apply(st, k).current;
      case OtherLine =>
    }
  }

  /**
    One record per `CATEGORY:` line, plus one (category OTHER, the fields it
    sets and defaults for the rest) for field lines before the first of them.
   */
  lemma ParseAiCount(response: string)
    ensures var ks := ClassifyAll(Split(response, '\n'));
      |ParseAi(response)| == CategoryLines(ks) + if HasStrayFields(ks) then 1 else 0
  {
    ApplyAllCount(ClassifyAll(Split(response, '\n')));
  }

  /** A record starts at every `CATEGORY:` line: the fields before it go to the previous record. */
  lemma ApplyCategoryFlushes(st: ParseState, v: string)
    ensures Apply(st, CategoryLine(v)).recs == Flush(st)
    ensures Apply(st, CategoryLine(v)).current == map["category" := v]
  {
  }

  // --- Round trip: rendering records in the prompt's format and parsing them back

  /** A field value the block format can carry: stripped and on one line. */
  predicate FieldOk(f: string)
  {
    IsStrippedOf(f, Whitespace) && '\n' !in f
  }

  /** A record the language model could have sent in the requested format. */
  predicate Renderable(r: Recommendation)
  {
    && FieldOk(r.category) && FieldOk(r.recommendation) && FieldOk(r.rationale) && FieldOk(r.priority)
    && r.evidenceLevel == "C" && r.contraindications == [] && r.alternatives == []
  }

  /** The four lines of one record in the format the prompt asks for. */
  function RenderBlock(r: Recommendation): seq<string>
  {
    [ "CATEGORY:" + r.category, "RECOMMENDATION:" + r.recommendation,
      "RATIONALE:" + r.rationale, "PRIORITY:" + r.priority ]
  }

  function RenderLines(recs: seq<Recommendation>): seq<string>
  {
    if recs == [] then [] else RenderLines(recs[..|recs| - 1]) + RenderBlock(recs[|recs| - 1])
  }

  /** A response listing `recs` block after block. */
  function Render(recs: seq<Recommendation>): string
  {
    Join(RenderLines(recs), "\n")
  }

  /** The `current_rec` dict a full block leaves. */
  function DictOf(r: Recommendation): map<string, string>
  {
    map["category" := r.category, "recommendation" := r.recommendation,
        "rationale" := r.rationale, "priority" := r.priority]
  }

  /** A tagged line of a stripped value is already stripped, and its field value is the value. */
  lemma TaggedLine(tag: string, f: string)
    requires |tag| >= 2 && tag[0] !in Whitespace && tag[|tag| - 1] == ':' && ':' !in tag[..|tag| - 1]
    requires IsStrippedOf(f, Whitespace)
    ensures Strip(tag + f) == tag + f
    ensures FieldValue(tag + f) == f
  {
    assert ':' !in Whitespace;
    LStripSetStops(tag, f, Whitespace);
    if f == [] {
      assert tag + f == tag && [] + tag == tag;
      RStripSetStops([], tag, Whitespace);
    } else {
      RStripSetStops(tag, f, Whitespace);
    }
    var name := tag[..|tag| - 1];
    assert name + [':'] + f == tag + f;
    AfterFirstOfPrefix(name, f, ':');
    StripSetOfStripped(f, Whitespace);
  }

  lemma ClassifyCategory(f: string)
    requires IsStrippedOf(f, Whitespace)
    ensures Classify("CATEGORY:" + f) == CategoryLine(f)
  {
    TaggedLine("CATEGORY:", f);
  }

  /** A string differing from `p` at an index of both is not prefixed by `p`. */
  lemma NotPrefix(p: string, s: string, i: nat)
    requires i < |p| && i < |s| && p[i] != s[i]
    ensures !(p <= s)
  {
  }

  lemma ClassifyRecommendation(f: string)
    requires IsStrippedOf(f, Whitespace)
    ensures Classify("RECOMMENDATION:" + f) == FieldLine("recommendation", f)
  {
    var line := "RECOMMENDATION:" + f;
    NotPrefix("CATEGORY:", line, 0);
    TaggedLine("RECOMMENDATION:", f);
  }

  lemma ClassifyRationale(f: string)
    requires IsStrippedOf(f, Whitespace)
    ensures Classify("RATIONALE:" + f) == FieldLine("rationale", f)
  {
    var line := "RATIONALE:" + f;
    NotPrefix("CATEGORY:", line, 0);
    NotPrefix("RECOMMENDATION:", line, 1);
    TaggedLine("RATIONALE:", f);
  }

  lemma ClassifyPriority(f: string)
    requires IsStrippedOf(f, Whitespace)
    ensures Classify("PRIORITY:" + f) == FieldLine("priority", f)
  {
    var line := "PRIORITY:" + f;
    NotPrefix("CATEGORY:", line, 0);
    NotPrefix("RECOMMENDATION:", line, 0);
    NotPrefix("RATIONALE:", line, 0);
    TaggedLine("PRIORITY:", f);
  }

  function BlockKinds(r: Recommendation): seq<LineKind>
  {
    [ CategoryLine(r.category), FieldLine("recommendation", r.recommendation),
      FieldLine("rationale", r.rationale), FieldLine("priority", r.priority) ]
  }

  function RenderKinds(recs: seq<Recommendation>): seq<LineKind>
  {
    if recs == [] then [] else RenderKinds(recs[..|recs| - 1]) + BlockKinds(recs[|recs| - 1])
  }

  lemma ClassifyAllAppend(a: seq<string>, b: seq<string>)
    ensures ClassifyAll(a + b) == ClassifyAll(a) + ClassifyAll(b)
  {
  }

  lemma MapSeqOf4<A, B>(f: A -> B, xs: seq<A>, ys: seq<B>)
    requires |xs| == |ys| == 4
    requires f(xs[0]) == ys[0] && f(xs[1]) == ys[1] && f(xs[2]) == ys[2] && f(xs[3]) == ys[3]
    ensures MapSeq(f, xs) == ys
  {
    var c := MapSeq(f, xs);
    assert c[0] == ys[0] && c[1] == ys[1] && c[2] == ys[2] && c[3] == ys[3];
  }

  lemma BlockLines(r: Recommendation)
    requires Renderable(r)
    ensures forall i :: 0 <= i < |RenderBlock(r)| ==> '\n' !in RenderBlock(r)[i]
  {
  }

  lemma BlockLine0(r: Recommendation)
    requires Renderable(r)
    ensures Classify(RenderBlock(r)[0]) == BlockKinds(r)[0]
  {
    ClassifyCategory(r.category);
  }

  lemma BlockLine1(r: Recommendation)
    requires Renderable(r)
    ensures Classify(RenderBlock(r)[1]) == BlockKinds(r)[1]
  {
    ClassifyRecommendation(r.recommendation);
  }

  lemma BlockLine2(r: Recommendation)
    requires Renderable(r)
    ensures Classify(RenderBlock(r)[2]) == BlockKinds(r)[2]
  {
    ClassifyRationale(r.rationale);
  }

  lemma BlockLine3(r: Recommendation)
    requires Renderable(r)
    ensures Classify(RenderBlock(r)[3]) == BlockKinds(r)[3]
  {
    ClassifyPriority(r.priority);
  }

  /** The four lines of a rendered block are classified as the block's four fields. */
  lemma ClassifyBlock(r: Recommendation)
    requires Renderable(r)
    ensures ClassifyAll(RenderBlock(r)) == BlockKinds(r)
    ensures forall i :: 0 <= i < |RenderBlock(r)| ==> '\n' !in RenderBlock(r)[i]
  {
    BlockLines(r);
    BlockLine0(r);
    BlockLine1(r);
    BlockLine2(r);
    BlockLine3(r);
    MapSeqOf4(Classify, RenderBlock(r), BlockKinds(r));
  }

  lemma {:induction false} ClassifyRendered(recs: seq<Recommendation>)
    requires forall r :: r in recs ==> Renderable(r)
    ensures ClassifyAll(RenderLines(recs)) == RenderKinds(recs)
    ensures forall i :: 0 <= i < |RenderLines(recs)| ==> '\n' !in RenderLines(recs)[i]
  {
    if recs != [] {
      var prev := recs[..|recs| - 1];
      var r := recs[|recs| - 1];
      assert r in recs;
      assert forall x :: x in prev ==> x in recs;
      ClassifyRendered(prev);
      ClassifyAllAppend(RenderLines(prev), RenderBlock(r));
      ClassifyBlock(r);
    }
  }

  lemma {:induction false} ApplyAllAppend(st: ParseState, a: seq<LineKind>, b: seq<LineKind>)
    ensures ApplyAll(st, a + b) == ApplyAll(ApplyAll(st, a), b)
    decreases |b|
  {
    if b == [] {
      assert a + b == a;
    } else {
      assert (a + b)[..|a + b| - 1] == a + b[..|b| - 1];
      ApplyAllAppend(st, a, b[..|b| - 1]);
    }
  }

  /** Parsing one block flushes the previous record and leaves the block's fields current. */
  lemma ApplyBlock(st: ParseState, r: Recommendation)
    ensures ApplyAll(st, BlockKinds(r)) == ParseState(Flush(st), DictOf(r))
  {
    var b := BlockKinds(r);
    var s1 := Apply(st, b[0]);
    var s2 := Apply(s1, b[1]);
    var s3 := Apply(s2, b[2]);
    assert b[..1][..0] == [];
    assert ApplyAll(st, b[..1]) == s1;
    assert b[..2][..1] == b[..1];
    assert ApplyAll(st, b[..2]) == s2;
    assert b[..3][..2] == b[..2];
    assert ApplyAll(st, b[..3]) == s3;
    assert b[..4] == b;
  }

  lemma {:induction false} ApplyRendered(recs: seq<Recommendation>)
    requires forall r :: r in recs ==> Renderable(r)
    ensures ApplyAll(Start, RenderKinds(recs)) ==
      if recs == [] then Start else ParseState(recs[..|recs| - 1], DictOf(recs[|recs| - 1]))
  {
    if recs != [] {
      var prev := recs[..|recs| - 1];
      var r := recs[|recs| - 1];
      assert forall x :: x in prev ==> x in recs;
      ApplyRendered(prev);
      ApplyAllAppend(Start, RenderKinds(prev), BlockKinds(r));
      ApplyBlock(ApplyAll(Start, RenderKinds(prev)), r);
      if prev != [] {
        assert prev[|prev| - 1] in recs;
        FlushLast(prev);
      }
    }
  }

  /** `_create_recommendation_from_dict` recovers a record from the dict of its four fields. */
  lemma FromDictOf(r: Recommendation)
    requires r.evidenceLevel == "C" && r.contraindications == [] && r.alternatives == []
    ensures FromDict(DictOf(r)) == r
  {
  }

  /** Flushing the last record's fields after the others gives all the records back. */
  lemma FlushLast(recs: seq<Recommendation>)
    requires recs != [] && Renderable(recs[|recs| - 1])
    ensures Flush(ParseState(recs[..|recs| - 1], DictOf(recs[|recs| - 1]))) == recs
  {
    var q := recs[|recs| - 1];
    FromDictOf(q);
    assert recs[..|recs| - 1] + [q] == recs;
  }

  /** An empty response holds no records. */
  lemma ParseAiEmpty()
    ensures ParseAi("") == []
  {
    assert Split("", '\n') == [""];
    ClassifyEmpty();
    assert ClassifyAll([""]) == [OtherLine];
    ApplyAllOne(Start, OtherLine);
  }

  lemma ClassifyEmpty()
    ensures Classify("") == OtherLine
  {
    assert Strip("") == "";
    var e: string := "";
    assert |e| == 0;
    assert !("CATEGORY:" <= e) && !("RECOMMENDATION:" <= e) && !("RATIONALE:" <= e) && !("PRIORITY:" <= e);
  }

  lemma ApplyAllOne(st: ParseState, k: LineKind)
    ensures ApplyAll(st, [k]) == Apply(st, k)
  {
    assert [k][..0] == [];
  }

  /** The line kinds of rendered records rebuild the records. */
  lemma ParseKinds(recs: seq<Recommendation>)
    requires recs != [] && forall r :: r in recs ==> Renderable(r)
    ensures Flush(ApplyAll(Start, RenderKinds(recs))) == recs
  {
    ApplyRendered(recs);
    assert recs[|recs| - 1] in recs;
    FlushLast(recs);
  }

  /** Records written in the block format the prompt requests are parsed back exactly. */
  lemma ParseAiRender(recs: seq<Recommendation>)
    requires forall r :: r in recs ==> Renderable(r)
    ensures ParseAi(Render(recs)) == recs
  {
    if recs == [] {
      ParseAiEmpty();
    } else {
      var lines := RenderLines(recs);
      ClassifyRendered(recs);
      assert |lines| >= 1 by {
        assert lines == RenderLines(recs[..|recs| - 1]) + RenderBlock(recs[|recs| - 1]);
      }
      SplitJoin(lines, '\n');
      ParseKinds(recs);
    }
  }

  // ---------------------------------------------------------------------------
  // Prioritisation: deduplicate by (category, lower-cased text), then sort by priority

  /** The deduplication key `(rec.category, rec.recommendation.lower())`. */
  datatype Key = Key(category: string, text: string)

  function KeyOf(r: Recommendation): Key
  {
    Key(r.category, Lower(r.recommendation))
  }

  /** `priority_order.get(priority, 3)`. */
  function Rank(priority: string): nat
  {
    if priority == "HIGH" then 0
    else if priority == "MEDIUM" then 1
    else if priority == "LOW" then 2
    else 3
  }

  /** The `unique_recs` dict: its keys in insertion order and the value stored under each. */
  datatype UniqueRecs = UniqueRecs(keys: seq<Key>, values: map<Key, Recommendation>)

  /** Keys are distinct, are exactly the map's domain, and each value is stored under its own key. */
  predicate WellFormed(u: UniqueRecs)
  {
    && (forall i, j :: 0 <= i < j < |u.keys| ==> u.keys[i] != u.keys[j])
    && (forall k :: k in u.keys ==> k in u.values)
    && (forall k :: k in u.values ==> k in u.keys)
    && (forall k :: k in u.values ==> KeyOf(u.values[k]) == k)
  }

  /** One iteration of the deduplication loop. */
  function DedupStep(u: UniqueRecs, r: Recommendation): UniqueRecs
  {
    var k := KeyOf(r);
    if k !in u.values then UniqueRecs(u.keys + [k], u.values[k := r])
    else if r.priority == "HIGH" then UniqueRecs(u.keys, u.values[k := r])
    else u
  }

  lemma DedupStepKeeps(u: UniqueRecs, r: Recommendation)
    requires WellFormed(u)
    ensures WellFormed(DedupStep(u, r))
    ensures |DedupStep(u, r).keys| <= |u.keys| + 1
    ensures forall k :: k in DedupStep(u, r).values ==> DedupStep(u, r).values[k] == r || (k in u.values && DedupStep(u, r).values[k] == u.values[k])
  {
    var k := KeyOf(r);
    if k !in u.values {
      var v := DedupStep(u, r);
      assert v.keys == u.keys + [k];
      forall i, j | 0 <= i < j < |v.keys| ensures v.keys[i] != v.keys[j] {
        if j == |u.keys| {
          assert v.keys[i] in u.keys;
        }
      }
    }
  }

  /** `unique_recs` after the loop has run over `recs`. */
  function Dedup(recs: seq<Recommendation>): (u: UniqueRecs)
    ensures WellFormed(u)
    ensures |u.keys| <= |recs|
    ensures forall k :: k in u.values ==> u.values[k] in recs
  {
    if recs == [] then UniqueRecs([], map[])
    else
      var prev := Dedup(recs[..|recs| - 1]);
      var r := recs[|recs| - 1];
      assert forall x :: x in recs[..|recs| - 1] ==> x in recs;
      DedupStepKeeps(prev, r);
      DedupStep(prev, r)
  }

  /** `unique_recs.values()`, in the dict's order. */
  function Values(u: UniqueRecs): (v: seq<Recommendation>)
    requires WellFormed(u)
    ensures |v| == |u.keys|
    ensures forall i :: 0 <= i < |v| ==> v[i] == u.values[u.keys[i]]
  {
    seq(|u.keys|, i requires 0 <= i < |u.keys| => u.values[u.keys[i]])
  }

  /** The sort key of `_prioritize_recommendations`. */
  function PriorityRank(r: Recommendation): (n: nat)
    ensures n <= 3
  {
    Rank(r.priority)
  }

  /**
    Python's stable `sorted(xs, key=rank)`: since ranks are 0..3, a stable sort
    is the concatenation of the four rank classes, each in input order.
   */
  function SortByRank(xs: seq<Recommendation>): seq<Recommendation>
  {
    Buckets(xs, PriorityRank, 4)
  }

  /** What `_prioritize_recommendations` returns. */
  function Prioritized(recs: seq<Recommendation>): seq<Recommendation>
  {
    SortByRank(Values(Dedup(recs)))
  }

  // --- Reference definition of which duplicate survives

  /** The first recommendation of `recs` with key `k`. */
  function FirstWithKey(recs: seq<Recommendation>, k: Key): (r: Option<Recommendation>)
    ensures r.Some? ==> r.value in recs && KeyOf(r.value) == k
    ensures r.None? <==> forall x :: x in recs ==> KeyOf(x) != k
  {
    if recs == [] then None
    else
      var prev := FirstWithKey(recs[..|recs| - 1], k);
      assert recs == recs[..|recs| - 1] + [recs[|recs| - 1]];
      if prev.Some? then prev
      else if KeyOf(recs[|recs| - 1]) == k then Some(recs[|recs| - 1])
      else None
  }

  /** The last HIGH-priority recommendation of `recs` with key `k`. */
  function LastHighWithKey(recs: seq<Recommendation>, k: Key): (r: Option<Recommendation>)
    ensures r.Some? ==> r.value in recs && KeyOf(r.value) == k && r.value.priority == "HIGH"
    ensures r.None? <==> forall x :: x in recs ==> !(KeyOf(x) == k && x.priority == "HIGH")
  {
    if recs == [] then None
    else
      var r := recs[|recs| - 1];
      assert recs == recs[..|recs| - 1] + [r];
      if KeyOf(r) == k && r.priority == "HIGH" then Some(r)
      else LastHighWithKey(recs[..|recs| - 1], k)
  }

  /** The recommendation the deduplication should keep for key `k`. */
  function Winner(recs: seq<Recommendation>, k: Key): Option<Recommendation>
  {
    if LastHighWithKey(recs, k).Some? then LastHighWithKey(recs, k) else FirstWithKey(recs, k)
  }

  /**
    A key is kept exactly when some input has it; the stored recommendation is
    the last HIGH-priority one with that key, or the first one when none is HIGH.
   */
  lemma {:induction false} DedupKeepsWinner(recs: seq<Recommendation>, k: Key)
    ensures k in Dedup(recs).values <==> FirstWithKey(recs, k).Some?
    ensures k in Dedup(recs).values ==> Winner(recs, k) == Some(Dedup(recs).values[k])
  {
    if recs != [] {
      var prev := recs[..|recs| - 1];
      var r := recs[|recs| - 1];
      DedupKeepsWinner(prev, k);
      var u := Dedup(prev);
      assert Dedup(recs) == DedupStep(u, r);
      if KeyOf(r) != k {
        assert FirstWithKey(recs, k) == FirstWithKey(prev, k);
        assert LastHighWithKey(recs, k) == LastHighWithKey(prev, k);
        assert Winner(recs, k) == Winner(prev, k);
        assert (k in DedupStep(u, r).values) == (k in u.values);
      } else if k !in u.values {
        assert FirstWithKey(recs, k) == Some(r);
        assert LastHighWithKey(prev, k).None?;
        assert Winner(recs, k) == Some(r);
        assert DedupStep(u, r).values[k] == r;
      } else if r.priority == "HIGH" {
        assert LastHighWithKey(recs, k) == Some(r);
        assert Winner(recs, k) == Some(r);
        assert DedupStep(u, r).values[k] == r;
      } else {
        assert FirstWithKey(recs, k) == FirstWithKey(prev, k);
        assert LastHighWithKey(recs, k) == LastHighWithKey(prev, k);
        assert Winner(recs, k) == Winner(prev, k);
        assert DedupStep(u, r) == u;
      }
    }
  }

  // --- Properties of the sort

  predicate RankSorted(xs: seq<Recommendation>)
  {
    forall i, j :: 0 <= i < j < |xs| ==> Rank(xs[i].priority) <= Rank(xs[j].priority)
  }

  predicate UniqueKeys(xs: seq<Recommendation>)
  {
    forall i, j :: 0 <= i < j < |xs| ==> KeyOf(xs[i]) != KeyOf(xs[j])
  }

  /** The prioritiser's output is ordered by rank. */
  lemma SortByRankSorted(xs: seq<Recommendation>)
    ensures RankSorted(SortByRank(xs))
  {
    BucketsSorted(xs, PriorityRank, 4);
    var s := SortByRank(xs);
    forall i, j | 0 <= i < j < |s| ensures Rank(s[i].priority) <= Rank(s[j].priority) {
      assert PriorityRank(s[i]) <= PriorityRank(s[j]);
    }
  }

  /** The sort is stable: each rank class keeps its input order. */
  lemma SortByRankStable(xs: seq<Recommendation>, n: nat)
    ensures Bucket(SortByRank(xs), PriorityRank, n) == Bucket(xs, PriorityRank, n)
  {
    if n < 4 {
      BucketsStable(xs, PriorityRank, 4, n);
    } else {
      BucketsAbove(xs, PriorityRank, 4, n);
      BucketNone(xs, PriorityRank, n);
    }
  }

  /** The sort is a permutation. */
  lemma SortByRankPermutes(xs: seq<Recommendation>)
    ensures multiset(SortByRank(xs)) == multiset(xs)
  {
    BucketsPermute(xs, PriorityRank, 4);
  }

  lemma SortByRankUniqueKeys(xs: seq<Recommendation>)
    requires UniqueKeys(xs)
    ensures UniqueKeys(SortByRank(xs))
  {
    assert UniqueBy(xs, KeyOf) by {
      forall i, j | 0 <= i < j < |xs| ensures KeyOf(xs[i]) != KeyOf(xs[j]) {
      }
    }
    BucketsUnique(xs, PriorityRank, KeyOf, 4);
    var s := SortByRank(xs);
    forall i, j | 0 <= i < j < |s| ensures KeyOf(s[i]) != KeyOf(s[j]) {
    }
  }

  lemma ValuesUniqueKeys(u: UniqueRecs)
    requires WellFormed(u)
    ensures UniqueKeys(Values(u))
  {
  }

  /** The prioritiser keeps one recommendation per key. */
  lemma PrioritizedUniqueKeys(recs: seq<Recommendation>)
    ensures UniqueKeys(Prioritized(recs))
  {
    ValuesUniqueKeys(Dedup(recs));
    SortByRankUniqueKeys(Values(Dedup(recs)));
  }

  /** The prioritiser's output is ordered HIGH, MEDIUM, LOW, then any other priority. */
  lemma PrioritizedSorted(recs: seq<Recommendation>)
    ensures RankSorted(Prioritized(recs))
  {
    SortByRankSorted(Values(Dedup(recs)));
  }

  /**
    The prioritiser returns a permutation of the deduplicated values, only
    recommendations it was given, and no more than it was given.
   */
  lemma PrioritizedFromInput(recs: seq<Recommendation>)
    ensures multiset(Prioritized(recs)) == multiset(Values(Dedup(recs)))
    ensures forall r :: r in Prioritized(recs) ==> r in recs
    ensures |Prioritized(recs)| <= |recs|
  {
    var u := Dedup(recs);
    var v := Values(u);
    var p := Prioritized(recs);
    SortByRankPermutes(v);
    forall r | r in p ensures r in recs {
      assert r in multiset(p);
      assert r in multiset(v);
      var i :| 0 <= i < |v| && v[i] == r;
      assert u.keys[i] in u.values;
    }
    assert |p| == |multiset(p)| == |multiset(v)| == |v|;
  }

  /** Within one priority the prioritiser keeps the order in which keys were first seen. */
  lemma PrioritizedStable(recs: seq<Recommendation>, n: nat)
    ensures Bucket(Prioritized(recs), PriorityRank, n) == Bucket(Values(Dedup(recs)), PriorityRank, n)
  {
    SortByRankStable(Values(Dedup(recs)), n);
  }

  /** Nothing in, nothing out. */
  lemma PrioritizedEmpty()
    ensures Prioritized([]) == []
  {
    assert Values(Dedup([])) == [];
    BucketsEmpty(PriorityRank, 4);
  }

  /** Every key of the input survives into the prioritised output. */
  lemma PrioritizedKeeps(recs: seq<Recommendation>, r: Recommendation)
    requires r in recs
    ensures exists x :: x in Prioritized(recs) && KeyOf(x) == KeyOf(r)
  {
    var u := Dedup(recs);
    var k := KeyOf(r);
    DedupKeepsWinner(recs, k);
    assert k in u.values;
    var i :| 0 <= i < |u.keys| && u.keys[i] == k;
    var v := Values(u);
    assert v[i] == u.values[k] && KeyOf(v[i]) == k;
    SortByRankPermutes(v);
    assert v[i] in multiset(Prioritized(recs));
  }

  // ---------------------------------------------------------------------------
  // The service

  /**
    The list `generate_recommendations_from_data` hands to the prioritiser:
    each rule's output in the source's order, each behind the source's guard.
    `labRecs` and `lifestyleRecs` are the two set-driven lists in whatever
    order the sets were iterated.
   */
  function Candidates(guidelines: map<string, ConditionGuidelines>, db: map<(string, string), InteractionInfo>,
                      ds: seq<Diagnosis>, symptoms: seq<string>, meds: seq<string>,
                      labRecs: seq<Recommendation>, lifestyleRecs: seq<Recommendation>): seq<Recommendation>
  {
    (if ds != [] then GuidelineRecs(guidelines, ds) else [])
    + (if symptoms != [] || ds != [] then labRecs else [])
    + (if ds != [] then MedicationRecs(guidelines, ds) else [])
    + (if meds != [] then InteractionRecs(Interactions(db, meds)) else [])
    + (if ds != [] then lifestyleRecs else [])
    + (if ds != [] then FollowUpRecommendations(ds) else [])
  }

  /** With at least one diagnosis the follow-up is among the candidates. */
  lemma CandidatesFollowUp(guidelines: map<string, ConditionGuidelines>, db: map<(string, string), InteractionInfo>,
                           ds: seq<Diagnosis>, symptoms: seq<string>, meds: seq<string>,
                           labRecs: seq<Recommendation>, lifestyleRecs: seq<Recommendation>)
    requires ds != []
    ensures FollowUpRec() in Candidates(guidelines, db, ds, symptoms, meds, labRecs, lifestyleRecs)
  {
    var c := Candidates(guidelines, db, ds, symptoms, meds, labRecs, lifestyleRecs);
    assert c[|c| - 1] == FollowUpRec();
  }

  /** With no diagnosis, no symptom and no medication there are no candidates. */
  lemma CandidatesEmpty(guidelines: map<string, ConditionGuidelines>, db: map<(string, string), InteractionInfo>,
                        labRecs: seq<Recommendation>, lifestyleRecs: seq<Recommendation>)
    ensures Candidates(guidelines, db, [], [], [], labRecs, lifestyleRecs) == []
  {
  }

  /** `ClinicalRecommendationService`, with its three knowledge tables; the language model and database are left out. */
  class ClinicalRecommendationService {
    const guidelines: map<string, ConditionGuidelines>
    const drugInteractionsDb: map<(string, string), InteractionInfo>
    const labRecommendations: seq<(string, seq<string>)>

    /** `_load_clinical_guidelines`. */
    static method LoadClinicalGuidelines() returns (g: map<string, ConditionGuidelines>)
      ensures g == ClinicalGuidelines()
    {
      g := ClinicalGuidelines();
    }

    /** `_load_drug_interactions`. */
    static method LoadDrugInteractions() returns (db: map<(string, string), InteractionInfo>)
      ensures db == DrugInteractionsDb()
    {
      db := DrugInteractionsDb();
    }

    /** `_load_lab_recommendations`. */
    static method LoadLabRecommendations() returns (labs: seq<(string, seq<string>)>)
      ensures labs == LabRecommendationsTable()
    {
      labs := LabRecommendationsTable();
    }

    /** The service's tables are the ones it loads at start-up. */
    constructor()
      ensures guidelines == ClinicalGuidelines()
      ensures drugInteractionsDb == DrugInteractionsDb()
      ensures labRecommendations == LabRecommendationsTable()
    {
      var g := LoadClinicalGuidelines();
      var db := LoadDrugInteractions();
      var labs := LoadLabRecommendations();
      guidelines := g;
      drugInteractionsDb := db;
      labRecommendations := labs;
    }

    /** `_extract_medications_from_text`: the keyword test has no effect, and no medication is ever returned. */
    method ExtractMedicationsFromText(text: string) returns (medications: seq<string>)
      ensures medications == []
    {
      medications := [];
    }

    /** The keyword scan of `_extract_symptoms_from_text`, over any keyword list. */
    static method KeywordsInText(keywords: seq<string>, textLower: string) returns (symptoms: seq<string>)
      ensures symptoms == KeywordsIn(keywords, textLower)
    {
      symptoms := [];
      for i := 0 to |keywords|
        invariant symptoms == KeywordsIn(keywords[..i], textLower)
      {
        assert keywords[..i + 1][..i] == keywords[..i];
        if Contains(textLower, keywords[i]) {
          symptoms := symptoms + [keywords[i]];
        }
      }
      assert keywords[..|keywords|] == keywords;
    }

    /** `_extract_symptoms_from_text`. */
    method ExtractSymptomsFromText(text: string) returns (symptoms: seq<string>)
      ensures symptoms == KeywordsIn(SymptomKeywords(), Lower(text))
    {
      symptoms := KeywordsInText(SymptomKeywords(), Lower(text));
    }

    /** The inner loop of `_get_guideline_recommendations`: one recommendation per guideline. */
    static method RecommendGuidelines(gs: seq<Guideline>) returns (recommendations: seq<Recommendation>)
      ensures recommendations == GuidelineRecsOf(gs)
    {
      recommendations := [];
      for j := 0 to |gs|
        invariant recommendations == GuidelineRecsOf(gs[..j])
      {
        assert gs[..j + 1][..j] == gs[..j];
        recommendations := recommendations + [GuidelineRec(gs[j])];
      }
      assert gs[..|gs|] == gs;
    }

    /** `_get_guideline_recommendations`. */
    method GetGuidelineRecommendations(diagnoses: seq<Diagnosis>) returns (recommendations: seq<Recommendation>)
      ensures recommendations == GuidelineRecs(guidelines, diagnoses)
    {
      recommendations := [];
      for i := 0 to |diagnoses|
        invariant recommendations == GuidelineRecs(guidelines, diagnoses[..i])
      {
        assert diagnoses[..i + 1][..i] == diagnoses[..i];
        var d := diagnoses[i];
        if d.icd10Code.Some? && d.icd10Code.value in guidelines {
          var recs := RecommendGuidelines(guidelines[d.icd10Code.value].guidelines);
          recommendations := recommendations + recs;
        }
      }
      assert diagnoses[..|diagnoses|] == diagnoses;
    }

    /** The inner loop of `_get_medication_recommendations`. */
    static method RecommendMedications(gs: seq<Guideline>) returns (recommendations: seq<Recommendation>)
      ensures recommendations == MedicationRecsOf(MedicationGuidelines(gs))
    {
      var medGuidelines := MedicationGuidelines(gs);
      recommendations := [];
      for j := 0 to |medGuidelines|
        invariant recommendations == MedicationRecsOf(medGuidelines[..j])
      {
        assert medGuidelines[..j + 1][..j] == medGuidelines[..j];
        recommendations := recommendations + [MedicationRec(medGuidelines[j])];
      }
      assert medGuidelines[..|medGuidelines|] == medGuidelines;
    }

    /** `_get_medication_recommendations`; the current medications are not consulted. */
    method GetMedicationRecommendations(diagnoses: seq<Diagnosis>, currentMedications: seq<string>)
      returns (recommendations: seq<Recommendation>)
      ensures recommendations == MedicationRecs(guidelines, diagnoses)
    {
      recommendations := [];
      for i := 0 to |diagnoses|
        invariant recommendations == MedicationRecs(guidelines, diagnoses[..i])
      {
        assert diagnoses[..i + 1][..i] == diagnoses[..i];
        var d := diagnoses[i];
        if d.icd10Code.Some? && d.icd10Code.value in guidelines {
          var recs := RecommendMedications(guidelines[d.icd10Code.value].guidelines);
          recommendations := recommendations + recs;
        }
      }
      assert diagnoses[..|diagnoses|] == diagnoses;
    }

    /**
      The inner loop of `_check_drug_interactions`: `medications[i]` against
      each later medication. The normalised names are computed once per
      medication rather than once per pair, which yields the same keys.
     */
    method CheckRow(medications: seq<string>, norms: seq<string>, i: nat) returns (interactions: seq<DrugInteraction>)
      requires i < |medications| && |norms| == |medications|
      ensures interactions == RowInteractions(drugInteractionsDb, medications, norms, i, |medications|)
    {
      interactions := [];
      for j := i + 1 to |medications|
        invariant interactions == RowInteractions(drugInteractionsDb, medications, norms, i, j)
      {
        var med1Norm := norms[i];
        var med2Norm := norms[j];
        var key1 := (med1Norm, med2Norm);
        var key2 := (med2Norm, med1Norm);
        RowInteractionsStep(drugInteractionsDb, medications, norms, i, j);
        if key1 in drugInteractionsDb || key2 in drugInteractionsDb {
          var data := if key1 in drugInteractionsDb then drugInteractionsDb[key1] else drugInteractionsDb[key2];
          interactions := interactions + [DrugInteraction(medications[i], medications[j],
            data.severity, data.description, data.management)];
        }
      }
    }

    /** `_check_drug_interactions`. */
    method CheckDrugInteractions(medications: seq<string>) returns (interactions: seq<DrugInteraction>)
      ensures interactions == Interactions(drugInteractionsDb, medications)
    {
      var norms := NormalizeAll(medications);
      interactions := [];
      for i := 0 to |medications|
        invariant interactions == PairInteractions(drugInteractionsDb, medications, norms, i)
      {
        var row := CheckRow(medications, norms, i);
        interactions := interactions + row;
      }
    }

    /** `_create_interaction_recommendations`. */
    method CreateInteractionRecommendations(interactions: seq<DrugInteraction>)
      returns (recommendations: seq<Recommendation>)
      ensures recommendations == InteractionRecs(interactions)
    {
      recommendations := [];
      for i := 0 to |interactions|
        invariant recommendations == InteractionRecs(interactions[..i])
      {
        assert interactions[..i + 1][..i] == interactions[..i];
        recommendations := recommendations + [InteractionRec(interactions[i])];
      }
      assert interactions[..|interactions|] == interactions;
    }

    /** `recommended_labs.update(labs)` for every table row matching one symptom. */
    method MatchLabs(symptomLower: string) returns (labs: set<string>)
      ensures labs == MatchingLabs(labRecommendations, symptomLower)
    {
      var rows := labRecommendations;
      labs := {};
      for j := 0 to |rows|
        invariant labs == MatchingLabs(rows[..j], symptomLower)
      {
        assert rows[..j + 1][..j] == rows[..j];
        var (key, rowLabs) := rows[j];
        if Contains(symptomLower, key) || Contains(key, symptomLower) {
          labs := labs + set lab | lab in rowLabs;
        }
      }
      assert rows[..|rows|] == rows;
    }

    /** The `for lab in recommended_labs` / `for mod in lifestyle_mods` loops: one recommendation per member, in set order. */
    static method RecommendEach(items: set<string>, rule: SetRule) returns (recommendations: seq<Recommendation>)
      ensures ListsSet(recommendations, items, rule)
    {
      recommendations := [];
      var rest := items;
      ghost var order: seq<string> := [];
      while rest != {}
        invariant rest <= items
        invariant |order| == |items - rest|
        invariant forall x :: x in order <==> x in items && x !in rest
        invariant recommendations == SetRecsOf(rule, order)
        decreases |rest|
      {
        var item :| item in rest;
        EnumerationStep(items, rest, order, item);
        SetRecsOfAppend(rule, order, item);
        recommendations := recommendations + [SetRec(rule, item)];
        rest := rest - {item};
        order := order + [item];
      }
      assert items - rest == items;
      SetRecsOfLists(rule, order, items);
    }

    /** `_get_lab_recommendations`: one `Order <lab>` per lab chosen by a symptom or monitored for a diagnosis. */
    method GetLabRecommendations(symptoms: seq<string>, diagnoses: seq<Diagnosis>)
      returns (recommendations: seq<Recommendation>)
      ensures ListsSet(recommendations, LabsFor(labRecommendations, guidelines, symptoms, diagnoses), LabRule)
    {
      var recommendedLabs: set<string> := {};
      for i := 0 to |symptoms|
        invariant recommendedLabs == SymptomLabs(labRecommendations, symptoms[..i])
      {
        assert symptoms[..i + 1][..i] == symptoms[..i];
        var labs := MatchLabs(Lower(symptoms[i]));
        recommendedLabs := recommendedLabs + labs;
      }
      assert symptoms[..|symptoms|] == symptoms;
      ghost var bySymptom := recommendedLabs;
      for i := 0 to |diagnoses|
        invariant recommendedLabs == bySymptom + MonitoringLabs(guidelines, diagnoses[..i])
      {
        assert diagnoses[..i + 1][..i] == diagnoses[..i];
        var d := diagnoses[i];
        if d.icd10Code.Some? && d.icd10Code.value in guidelines {
          var monitoring := guidelines[d.icd10Code.value].monitoring;
          recommendedLabs := recommendedLabs + set lab | lab in monitoring;
        }
      }
      assert diagnoses[..|diagnoses|] == diagnoses;
      recommendations := RecommendEach(recommendedLabs, LabRule);
    }

    /** `_get_lifestyle_recommendations`: one recommendation per modification listed for a diagnosis. */
    method GetLifestyleRecommendations(diagnoses: seq<Diagnosis>) returns (recommendations: seq<Recommendation>)
      ensures ListsSet(recommendations, LifestyleFor(guidelines, diagnoses), LifestyleRule)
    {
      var lifestyleMods: set<string> := {};
      for i := 0 to |diagnoses|
        invariant lifestyleMods == LifestyleFor(guidelines, diagnoses[..i])
      {
        assert diagnoses[..i + 1][..i] == diagnoses[..i];
        var d := diagnoses[i];
        if d.icd10Code.Some? && d.icd10Code.value in guidelines {
          var mods := guidelines[d.icd10Code.value].lifestyleModifications;
          lifestyleMods := lifestyleMods + set m | m in mods;
        }
      }
      assert diagnoses[..|diagnoses|] == diagnoses;
      recommendations := RecommendEach(lifestyleMods, LifestyleRule);
    }

    /** `_parse_ai_recommendations`. */
    method ParseAiRecommendations(response: string) returns (recommendations: seq<Recommendation>)
      ensures recommendations == ParseAi(response)
    {
      var lines := Split(response, '\n');
      recommendations := [];
      var currentRec: map<string, string> := map[];
      for i := 0 to |lines|
        invariant ParseState(recommendations, currentRec) == ApplyAll(Start, ClassifyAll(lines[..i]))
      {
        ApplyAllNext(lines, i);
        var line := Strip(lines[i]);
        if "CATEGORY:" <= line {
          if currentRec != map[] {
            recommendations := recommendations + [FromDict(currentRec)];
          }
          currentRec := map["category" := FieldValue(line)];
        } else if "RECOMMENDATION:" <= line {
          currentRec := currentRec["recommendation" := FieldValue(line)];
        } else if "RATIONALE:" <= line {
          currentRec := currentRec["rationale" := FieldValue(line)];
        } else if "PRIORITY:" <= line {
          currentRec := currentRec["priority" := FieldValue(line)];
        }
      }
      assert lines[..|lines|] == lines;
      if currentRec != map[] {
        recommendations := recommendations + [FromDict(currentRec)];
      }
    }

    /** `_prioritize_recommendations`: the dedup loop, then Python's stable `sorted` by rank. */
    method PrioritizeRecommendations(recommendations: seq<Recommendation>) returns (sortedRecs: seq<Recommendation>)
      ensures sortedRecs == Prioritized(recommendations)
    {
      var keys: seq<Key> := [];
      var uniqueRecs: map<Key, Recommendation> := map[];
      for i := 0 to |recommendations|
        invariant UniqueRecs(keys, uniqueRecs) == Dedup(recommendations[..i])
      {
        assert recommendations[..i + 1][..i] == recommendations[..i];
        var rec := recommendations[i];
        var key := KeyOf(rec);
        if key !in uniqueRecs {
          keys := keys + [key];
          uniqueRecs := uniqueRecs[key := rec];
        } else if rec.priority == "HIGH" {
          uniqueRecs := uniqueRecs[key := rec];
        }
      }
      assert recommendations[..|recommendations|] == recommendations;
      var u := UniqueRecs(keys, uniqueRecs);
      sortedRecs := SortByRank(Values(u));
    }

    /**
      `generate_recommendations_from_data` without its logging: the gated rule
      outputs prioritised. No medication is extracted, so there are never
      drug-interaction recommendations; with no diagnosis and no symptom
      keyword the result is empty; with a diagnosis the follow-up is kept.
     */
    method GenerateRecommendationsFromData(transcript: string, detectedDiseases: seq<Diagnosis>)
      returns (finalRecommendations: seq<Recommendation>)
      ensures exists labRecs, lifestyleRecs ::
        && ListsSet(labRecs, LabsFor(labRecommendations, guidelines,
             KeywordsIn(SymptomKeywords(), Lower(transcript)), detectedDiseases), LabRule)
        && ListsSet(lifestyleRecs, LifestyleFor(guidelines, detectedDiseases), LifestyleRule)
        && finalRecommendations == Prioritized(Candidates(guidelines, drugInteractionsDb, detectedDiseases,
             KeywordsIn(SymptomKeywords(), Lower(transcript)), [], labRecs, lifestyleRecs))
      ensures detectedDiseases == [] && KeywordsIn(SymptomKeywords(), Lower(transcript)) == [] ==>
        finalRecommendations == []
      ensures detectedDiseases != [] ==> exists r :: r in finalRecommendations && KeyOf(r) == KeyOf(FollowUpRec())
    {
      var medications := ExtractMedicationsFromText(transcript);
      var symptoms := ExtractSymptomsFromText(transcript);
      var recommendations: seq<Recommendation> := [];
      var guidelineRecs: seq<Recommendation> := [];
      var labRecs: seq<Recommendation> := [];
      var medRecs: seq<Recommendation> := [];
      var interactionRecs: seq<Recommendation> := [];
      var lifestyleRecs: seq<Recommendation> := [];
      var followupRecs: seq<Recommendation> := [];
      if detectedDiseases != [] {
        guidelineRecs := GetGuidelineRecommendations(detectedDiseases);
      }
      labRecs := GetLabRecommendations(symptoms, detectedDiseases);
      if detectedDiseases != [] {
        medRecs := GetMedicationRecommendations(detectedDiseases, medications);
      }
      if medications != [] {
        var interactions := CheckDrugInteractions(medications);
        if interactions != [] {
          interactionRecs := CreateInteractionRecommendations(interactions);
        }
      }
      lifestyleRecs := GetLifestyleRecommendations(detectedDiseases);
      if detectedDiseases != [] {
        followupRecs := FollowUpRecommendations(detectedDiseases);
      }
      recommendations := guidelineRecs
        + (if symptoms != [] || detectedDiseases != [] then labRecs else [])
        + medRecs + interactionRecs
        + (if detectedDiseases != [] then lifestyleRecs else [])
        + followupRecs;
      assert recommendations == Candidates(guidelines, drugInteractionsDb, detectedDiseases, symptoms, medications,
        labRecs, lifestyleRecs);
      finalRecommendations := PrioritizeRecommendations(recommendations);
      if detectedDiseases == [] && symptoms == [] {
        PrioritizedEmpty();
      }
      if detectedDiseases != [] {
        CandidatesFollowUp(guidelines, drugInteractionsDb, detectedDiseases, symptoms, medications, labRecs, lifestyleRecs);
        PrioritizedKeeps(recommendations, FollowUpRec());
      }
    }
  }
}
