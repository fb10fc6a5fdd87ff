# Clinical documentation services: a Dafny model of their rule logic

Four Python backend services of a clinical transcription and documentation
system wrap machine-learning models, a large language model and cloud stores
around deterministic rule logic. This project models that rule logic in Dafny
and proves what it promises. The model calls external results inputs: the
entities a named-entity model found, a classifier's confidence, the text
returned by the language model, and the status and JSON returned by the speech
service.

- **Recommendations** (module `Recommendations`, `recommendations.dfy`). This
  is the rule engine of the clinical recommendation service. It has three
  lookup tables keyed by ICD-10 code: clinical guidelines, drug interactions
  and laboratory tests.
  - It builds guideline, medication, laboratory, lifestyle and follow-up
    recommendations.
  - It checks every pair of medications for interactions, trying both key
    orders.
  - It parses the `CATEGORY:/RECOMMENDATION:/RATIONALE:/PRIORITY:` blocks of a
    language-model answer.
  - Its prioritiser removes duplicates, then sorts stably by priority.
  - The class `ClinicalRecommendationService` holds the three tables. Its
    methods run the source's loops. Each loop is proved against a
    specification function, and the lemmas are proved about those functions.
- **SOAP notes** (module `Soap`, `soap.dfy`).
  - A line-by-line state machine splits the language model's answer into the
    Subjective, Objective, Assessment and Plan sections.
  - Two extractors take the chief complaint and the bulleted diagnoses from
    those sections.
  - A formatter turns transcript segments into speaker-labelled lines.
  - An enrichment step fills the note's ICD-10 codes and differential
    diagnoses in place. It updates the note, which is the class `SoapNote`.
- **Disease detection** (module `Diseases`, `diseases.dfy`).
  - It scores diseases by keyword and symptom matches. Each input source
    (transcription, clinical notes, patient summary, lab results, previous
    diagnoses) adds to one running tally of scores and source mentions.
  - It builds the top ten detections with capped confidence.
  - The analysis endpoint adds the average confidence and the list of
    sources analysed.
  - The class `DiseaseDetector` holds the disease database. The tally is a
    value (`Tally`) that keeps the dictionaries' insertion order.
- **Transcription** (module `Transcription`, `transcription.dfy`).
  - Session creation validates the provider against the configured API keys.
  - The audio generator forwards WebSocket chunks and ends them with a
    sentinel.
  - The Deepgram path buffers audio up to the sentinel. It then maps the
    response's channels to transcript results and picks each result's
    majority speaker.
  - The full-transcript formatter renders the final segments.

The shared modules are:
- `Text`: the Python `str` operations the services use. These are `strip` and
  `lstrip` with character sets, `split`, `split(':', 1)`, `split(maxsplit=1)`,
  `replace`, `lower`, `upper`, `in`, `startswith` and `join`.
- `Seqs`: maps, filters and option collection over sequences.
- `Ranking`: Python's stable `sorted(..., reverse=True)` on a real key.
- `StableSort`: a stable sort on a small natural-number rank.
- `Wrappers`: `Option` and `Result`.

Python whitespace for `strip()` and `split()` is CPython's full set of space
characters.

## Model

| member | source | states |
|---|---|---|
| Recommendations.KeywordsIn | services/recommendations/main.py:406-408 | a keyword is in the result exactly when it is one of the keywords and occurs in the text; the result is no longer than the keyword list |
| Recommendations.ClinicalRecommendationService.ExtractSymptomsFromText | services/recommendations/main.py:394-410 | the symptoms are the fixed symptom keywords that occur in the lower-cased transcript, in keyword order |
| Recommendations.KeywordsInOrder | services/recommendations/main.py:406-408 | the keywords found are a subsequence of the keyword list: they keep its order |
| Recommendations.ClinicalRecommendationService.KeywordsInText | services/recommendations/main.py:406-408 | the loop over the keywords computes exactly the keywords contained in the text |
| Recommendations.ClinicalRecommendationService.ExtractMedicationsFromText | services/recommendations/main.py:379-392 | medication extraction always returns the empty list |
| Recommendations.ClinicalRecommendationService.LoadClinicalGuidelines | services/recommendations/main.py:60-177 | returns the guideline table for E11.9, I10 and J45.9, with their guidelines, monitoring and lifestyle lists; the table is a literal copy of the source's, so the contract names it, and the facts proved about it (such as `InteractionsDbHasNoReversedPairs`) carry the weight |
| Recommendations.ClinicalRecommendationService.LoadDrugInteractions | services/recommendations/main.py:179-214 | returns the drug-interaction table keyed by normalised name pairs; the table is a literal copy of the source's, and `InteractionsDbHasNoReversedPairs` is the fact proved about it |
| Recommendations.ClinicalRecommendationService.LoadLabRecommendations | services/recommendations/main.py:216-249 | returns the symptom-to-laboratory-test table, in dictionary order; the table is a literal copy of the source's, so the contract only names it |
| Recommendations.ClinicalRecommendationService.constructor | services/recommendations/main.py:54-57 | the service holds the three tables |
| Recommendations.InteractionsDbHasNoReversedPairs | services/recommendations/main.py:179-214 | the interaction table never holds both orders of one pair |
| Recommendations.GuidelineRec | services/recommendations/main.py:465-473 | a guideline recommendation has priority HIGH exactly when its evidence level is A, and MEDIUM otherwise; category, text and evidence come from the guideline |
| Recommendations.GuidelineRecsOf | services/recommendations/main.py:464-474 | one recommendation per guideline of a condition, in guideline order |
| Recommendations.GuidelineRecs | services/recommendations/main.py:458-474 | every guideline recommendation is HIGH exactly when its evidence is A, and is made from a guideline of the table entry of one of the diagnoses |
| Recommendations.ClinicalRecommendationService.RecommendGuidelines | services/recommendations/main.py:464-474 | the loop over one condition's guidelines builds their recommendations in order |
| Recommendations.ClinicalRecommendationService.GetGuidelineRecommendations | services/recommendations/main.py:451-476 | the nested loop over diagnoses and guidelines builds the guideline recommendations |
| Recommendations.MedicationGuidelines | services/recommendations/main.py:530-533 | the comprehension keeps exactly the guidelines of category MEDICATION |
| Recommendations.MedicationRecsOf | services/recommendations/main.py:535-545 | one medication recommendation per medication guideline, in order |
| Recommendations.MedicationRecs | services/recommendations/main.py:523-545 | every medication recommendation has category MEDICATION and priority HIGH and is made from a MEDICATION guideline of one of the diagnoses |
| Recommendations.ClinicalRecommendationService.RecommendMedications | services/recommendations/main.py:530-545 | the loop builds the recommendations of the medication guidelines only |
| Recommendations.ClinicalRecommendationService.GetMedicationRecommendations | services/recommendations/main.py:515-547 | the loop over diagnoses builds the medication recommendations; the current medications are not consulted |
| Recommendations.MatchingLabs | services/recommendations/main.py:490-492 | a test is chosen for a symptom exactly when some table row whose key contains, or is contained in, the symptom lists it |
| Recommendations.SymptomLabs | services/recommendations/main.py:488-492 | a test is chosen for the symptoms exactly when it is chosen for one lower-cased symptom |
| Recommendations.MonitoringLabs | services/recommendations/main.py:495-499 | a test is chosen for the diagnoses exactly when it is in the monitoring list of one diagnosis's table entry |
| Recommendations.LifestyleFor | services/recommendations/main.py:615-620 | a lifestyle change is collected exactly when it is in the list of one diagnosis's table entry |
| Recommendations.SetRecInjective | services/recommendations/main.py:501-511 | distinct tests, and distinct lifestyle changes, give distinct recommendations |
| Recommendations.SetRecsOfLists | services/recommendations/main.py:501-511 | listing an enumeration of a set yields one recommendation per member and nothing else |
| Recommendations.ClinicalRecommendationService.RecommendEach | services/recommendations/main.py:501-511 | the loop over a set, in any iteration order, yields exactly one recommendation per member |
| Recommendations.ClinicalRecommendationService.MatchLabs | services/recommendations/main.py:490-492 | the loop over the table rows collects the matching tests of one symptom |
| Recommendations.ClinicalRecommendationService.GetLabRecommendations | services/recommendations/main.py:478-513 | one LAB_TEST recommendation per member of the union of the symptom tests and the monitoring tests |
| Recommendations.ClinicalRecommendationService.GetLifestyleRecommendations | services/recommendations/main.py:607-634 | one LIFESTYLE recommendation per member of the union of the diagnoses' lifestyle lists |
| Recommendations.FollowUpRecommendations | services/recommendations/main.py:636-655 | the follow-up list is the single FOLLOW_UP recommendation of priority MEDIUM and evidence C, whatever the diagnoses |
| Recommendations.LookupInteraction | services/recommendations/main.py:564-570 | an interaction is found exactly when either order of the normalised pair is in the table; the first order wins |
| Recommendations.LookupSymmetric | services/recommendations/main.py:564-570 | when the table has no reversed pairs, the lookup does not depend on the order of the two names |
| Recommendations.InteractionAt | services/recommendations/main.py:572-580 | the pair at indices i, k reports the original names and the table's severity exactly when the lookup finds it |
| Recommendations.RowInteractions | services/recommendations/main.py:558-580 | the inner loop for medication i reports at most one interaction per later medication |
| Recommendations.RowInteractionsMembers | services/recommendations/main.py:558-580 | an interaction is reported for medication i exactly when it is found for some later index k |
| Recommendations.PairInteractionsMembers | services/recommendations/main.py:557-580 | an interaction is reported exactly when it is found for some pair i < j |
| Recommendations.PairInteractionsCount | services/recommendations/main.py:557-558 | each unordered pair is examined once, so there are at most n(n-1)/2 interactions |
| Recommendations.ClinicalRecommendationService.CheckRow | services/recommendations/main.py:558-580 | the inner loop computes the row's interactions |
| Recommendations.ClinicalRecommendationService.CheckDrugInteractions | services/recommendations/main.py:549-582 | the nested loop over pairs computes the interactions of the normalised names |
| Recommendations.InteractionRec | services/recommendations/main.py:591-603 | an interaction recommendation has priority HIGH exactly when the severity is MAJOR, and MEDIUM otherwise; its category is DRUG_INTERACTION and its evidence A |
| Recommendations.InteractionRecs | services/recommendations/main.py:591-605 | one recommendation per interaction, in order |
| Recommendations.ClinicalRecommendationService.CreateInteractionRecommendations | services/recommendations/main.py:584-605 | the loop builds one recommendation per interaction |
| Recommendations.FromDict | services/recommendations/main.py:737-747 | a parsed record has evidence C and no contraindications or alternatives; missing fields default to OTHER, "", "" and MEDIUM |
| Recommendations.FromDictOf | services/recommendations/main.py:737-747 | a record of evidence C rebuilt from its own fields is itself |
| Recommendations.ClassifyCategory | services/recommendations/main.py:721-724 | a `CATEGORY:` line opens a record whose category is the stripped text after the colon |
| Recommendations.ClassifyRecommendation | services/recommendations/main.py:725-726 | a `RECOMMENDATION:` line sets the recommendation field to the text after the colon |
| Recommendations.ClassifyRationale | services/recommendations/main.py:727-728 | a `RATIONALE:` line sets the rationale field to the text after the colon |
| Recommendations.ClassifyPriority | services/recommendations/main.py:729-730 | a `PRIORITY:` line sets the priority field to the text after the colon |
| Recommendations.TaggedLine | services/recommendations/main.py:724-730 | a field's value is the text after the first colon, stripped |
| Recommendations.ApplyCategoryFlushes | services/recommendations/main.py:721-724 | a category line flushes the record in progress and starts a new one holding only the category |
| Recommendations.ApplyAllEvidence | services/recommendations/main.py:717-733 | every record the parser emits has evidence C and no contraindications or alternatives |
| Recommendations.ParseAiEvidence | services/recommendations/main.py:712-735 | every parsed recommendation has evidence C and no contraindications or alternatives |
| Recommendations.ApplyAllCount | services/recommendations/main.py:717-730 | a record is in progress exactly when a category or field line was seen; each category line after the first, and stray fields before it, flush one record |
| Recommendations.ParseAiCount | services/recommendations/main.py:712-735 | the number of parsed recommendations is the number of category lines, plus one when field lines come before the first category line |
| Recommendations.ParseAiEmpty | services/recommendations/main.py:712-735 | an empty answer gives no recommendations |
| Recommendations.ApplyAllAppend | services/recommendations/main.py:718-730 | the parser's line loop over a concatenation runs over the first part and then the second |
| Recommendations.ApplyBlock | services/recommendations/main.py:721-730 | a four-line block flushes the previous record and leaves the block's fields in progress |
| Recommendations.ApplyRendered | services/recommendations/main.py:718-730 | after the blocks of several records, all but the last are emitted and the last is in progress |
| Recommendations.ParseKinds | services/recommendations/main.py:732-733 | the final flush emits the last record, so every block's record is emitted |
| Recommendations.ParseAiRender | services/recommendations/main.py:712-735 | parsing the answer format the prompt asks for (one block per record, fields stripped and newline-free) returns exactly those records: a round trip |
| Recommendations.ClinicalRecommendationService.ParseAiRecommendations | services/recommendations/main.py:712-735 | the line loop that updates the record in progress computes the parse |
| Recommendations.DedupStepKeeps | services/recommendations/main.py:756-759 | one deduplication step keeps the key list duplicate-free and stores either the new record or the one stored before |
| Recommendations.Dedup | services/recommendations/main.py:755-759 | the deduplicated dictionary is well formed, has no more keys than inputs and stores only input records |
| Recommendations.PriorityRank | services/recommendations/main.py:762-765 | the sort rank is HIGH 0, MEDIUM 1, LOW 2 and 3 for anything else |
| Recommendations.DedupKeepsWinner | services/recommendations/main.py:755-759 | a key is stored exactly when some input has it; the stored record is the last HIGH one of that key, and the first one when none is HIGH |
| Recommendations.SortByRankSorted | services/recommendations/main.py:763-766 | the sorted recommendations have non-decreasing rank |
| Recommendations.SortByRankStable | services/recommendations/main.py:763-766 | the sort keeps the input order within each rank |
| Recommendations.SortByRankPermutes | services/recommendations/main.py:763-766 | the sort is a permutation |
| Recommendations.SortByRankUniqueKeys | services/recommendations/main.py:763-766 | sorting distinct-key records keeps the keys distinct |
| Recommendations.ValuesUniqueKeys | services/recommendations/main.py:755-764 | the dictionary's values have pairwise distinct keys |
| Recommendations.PrioritizedUniqueKeys | services/recommendations/main.py:749-768 | the prioritised list holds at most one recommendation per (category, lower-cased text) key |
| Recommendations.PrioritizedSorted | services/recommendations/main.py:749-768 | the prioritised list is ordered by rank |
| Recommendations.PrioritizedFromInput | services/recommendations/main.py:749-768 | the prioritised list is a permutation of the dictionary's values, every item is an input and it is no longer than the input |
| Recommendations.PrioritizedStable | services/recommendations/main.py:749-768 | within a rank, the prioritised list keeps first-key-insertion order |
| Recommendations.PrioritizedEmpty | services/recommendations/main.py:749-768 | no input, no output |
| Recommendations.PrioritizedKeeps | services/recommendations/main.py:749-768 | every input's key is represented in the output |
| Recommendations.ClinicalRecommendationService.PrioritizeRecommendations | services/recommendations/main.py:749-768 | the dictionary loop followed by the sort computes the prioritised list |
| Recommendations.CandidatesFollowUp | services/recommendations/main.py:364-366 | with any detected disease, the follow-up recommendation is among the candidates |
| Recommendations.CandidatesEmpty | services/recommendations/main.py:337-366 | with no diseases, symptoms or medications there are no candidates |
| Recommendations.ClinicalRecommendationService.GenerateRecommendationsFromData | services/recommendations/main.py:316-373 | the result is the prioritised list of the guideline, lab, medication, interaction, lifestyle and follow-up candidates for the transcript's symptoms and no medications; it is empty without diseases and matched symptoms, and holds the follow-up key with any disease |
| Soap.SoapNote.constructor | services/soap-generator/main.py:18-34 | the note holds the given fields; every other optional field is None |
| Soap.HeaderOf | services/soap-generator/main.py:390-422 | the section a line opens is the first, in the order SUBJECTIVE, OBJECTIVE, ASSESSMENT, PLAN, whose header test matches; none exactly when no test matches |
| Soap.Clean | services/soap-generator/main.py:386 | cleaning a line never lengthens it; what the cleaning does is stated by `CleanShape`, `CleanOfPlain` and `CleanMarkdown` |
| Soap.CleanShape | services/soap-generator/main.py:382-386 | the cleaned line is stripped of whitespace and is a contiguous piece of the stripped line |
| Soap.CleanOfPlain | services/soap-generator/main.py:382-386 | a line whose stripped form has no leading `#` or `*` and no trailing `*` is only stripped |
| Soap.CleanMarkdown | services/soap-generator/main.py:385-386 | a markdown header `## **text**`, with any number of `#` and `*`, cleans to `text` |
| Soap.Capture | services/soap-generator/main.py:394-397 | the text captured on a header line is shorter than the cleaned line; what it is on the documented form is stated by `CaptureAfterLabel` |
| Soap.CaptureAfterLabel | services/soap-generator/main.py:394-397 | a cleaned header line `label: text` or `label - text` (a label without whitespace, `:` or `-`; a separator of whitespace, `:` and `-` holding at least one `:` or `-`; a stripped, non-empty text without `:` or `-`) captures exactly the text |
| Soap.HeaderAddsText | services/soap-generator/main.py:390-422 | such a header line adds exactly the text and a newline to its section's buffer |
| Soap.ParseOneHeader | services/soap-generator/main.py:378-422 | a one-line answer that is a header opens its section, holding the capture and a newline or nothing |
| Soap.ParseLines | services/soap-generator/main.py:381-426 | the loop over lines computes the state machine's run: the current section and the four buffers |
| Soap.ParseSections | services/soap-generator/main.py:371-426 | the buffers are those of the run over the answer split on newlines |
| Soap.HeaderLineNotAppended | services/soap-generator/main.py:390-422 | a header line switches to its section, leaves the other buffers alone, and appends to its own buffer exactly its capture and a newline when there is a capture and nothing otherwise; that is less than the line itself |
| Soap.ApplyHeader | services/soap-generator/main.py:392-398 | a header switches the section, leaves the other buffers alone and appends exactly its capture and a newline, or nothing when there is no capture |
| Soap.SkippedLine | services/soap-generator/main.py:425 | a non-header line that is blank or starts with `#` is skipped |
| Soap.ContentLine | services/soap-generator/main.py:425-426 | any other non-header line is content |
| Soap.RunAppend | services/soap-generator/main.py:381-426 | the run over a concatenation is the run over the first part followed by the second |
| Soap.RunWithoutHeader | services/soap-generator/main.py:425 | before any header, no line changes the state |
| Soap.BeforeFirstHeader | services/soap-generator/main.py:378-426 | lines ahead of the first header are discarded |
| Soap.RunExtends | services/soap-generator/main.py:381-426 | the run only appends to the buffers |
| Soap.ParseExtends | services/soap-generator/main.py:381-426 | each buffer of a prefix of the lines is a prefix of the final buffer |
| Soap.ContentAppended | services/soap-generator/main.py:425-426 | content lines are appended verbatim, each followed by a newline, to the current section |
| Soap.HeaderOfKeyword | services/soap-generator/main.py:390-415 | each section keyword on its own selects that section |
| Soap.KeywordIsHeader | services/soap-generator/main.py:390-422 | a line that is just a keyword is a header with nothing captured |
| Soap.ParseKeywordThenContent | services/soap-generator/main.py:390-426 | a keyword line followed by content lines fills exactly that section |
| Soap.SectionRoundTrip | services/soap-generator/main.py:379-426 | parsing a keyword line joined with newline-free content lines puts exactly those lines, each followed by a newline, into that section |
| Soap.FirstComplaint | services/soap-generator/main.py:449-451 | there is no labelled complaint exactly when no line mentions `chief complaint` or `cc:` |
| Soap.FirstComplaintIs | services/soap-generator/main.py:449-451 | the complaint comes from the first mentioning line, after its first colon, stripped |
| Soap.ChiefComplaintFirstMatch | services/soap-generator/main.py:446-451 | the chief complaint is the text after the first colon of the first mentioning line, stripped |
| Soap.ChiefComplaintFallback | services/soap-generator/main.py:453-455 | without a mentioning line, the chief complaint is the first line, stripped |
| Soap.ChiefComplaintLabelled | services/soap-generator/main.py:446-457 | a subjective section opening with `Chief complaint: c` yields c |
| Soap.DiagnosisOf | services/soap-generator/main.py:465-469 | a diagnosis taken from a line is non-empty and stripped |
| Soap.Diagnoses | services/soap-generator/main.py:464-469 | there are no more diagnoses than lines |
| Soap.DiagnosesFromLines | services/soap-generator/main.py:464-470 | each diagnosis is non-empty, stripped and the diagnosis of one of the lines |
| Soap.ExtractDiagnoses | services/soap-generator/main.py:459-471 | the loop over the assessment's lines computes the diagnoses in order |
| Soap.DashedItem | services/soap-generator/main.py:466-469 | a `- d` list item yields the diagnosis d |
| Soap.DiagnosesOfDashed | services/soap-generator/main.py:464-469 | a list of `- d` items yields exactly its diagnoses |
| Soap.NoDiagnosisInEmpty | services/soap-generator/main.py:459-471 | an empty assessment has no diagnoses |
| Soap.DiagnosesRoundTrip | services/soap-generator/main.py:459-471 | extracting from the newline-joined `- d` items returns exactly the diagnoses |
| Soap.ParsedFields | services/soap-generator/main.py:431-444 | a parsed note always has a chief complaint and a differential list, and none of the fields the parser does not fill |
| Soap.ParseSoapResponse | services/soap-generator/main.py:367-444 | the new note holds the stripped sections, the chief complaint, the first diagnosis as primary and the rest as differential, and no ICD-10 codes |
| Soap.IcdCodes | services/soap-generator/main.py:219 | the codes are non-empty and there are no more codes than detections |
| Soap.IcdCodesAppend | services/soap-generator/main.py:219 | the codes of a concatenation are the codes of the parts, in order |
| Soap.IcdCodesMembers | services/soap-generator/main.py:219 | a code is listed exactly when some detection carries it as a non-empty code |
| Soap.DiseaseNames | services/soap-generator/main.py:481-483 | one name per detection, in order |
| Soap.FirstFive | services/soap-generator/main.py:482 | the first five detections, or all when fewer |
| Soap.EnrichSoapNote | services/soap-generator/main.py:473-485 | with detections, the codes are set and an empty differential becomes the first five disease names; nothing else in the note changes |
| Soap.AttachCodes | services/soap-generator/main.py:218-219 | with detections, the note's codes are set; its other fields do not change |
| Soap.GenerateSoapNoteFromTranscript | services/soap-generator/main.py:183-223 | the note is the parsed answer, with the detections' codes when there are detections |
| Soap.FormattedLines | services/soap-generator/main.py:266-281 | at most one line per segment |
| Soap.FormattedLinesAppend | services/soap-generator/main.py:266-281 | the lines of a concatenation are the lines of the parts, so only final segments contribute, in order |
| Soap.SpeakerLabelOfTag | services/soap-generator/main.py:273-277 | a first word tagged `SPEAKER_n` labels the line `Speaker n` |
| Soap.FormatTranscript | services/soap-generator/main.py:262-283 | the loop's output is the formatted lines joined with newlines |
| Soap.FormattedLinesNewlineFree | services/soap-generator/main.py:266-281 | newline-free segments give newline-free lines |
| Soap.FormatTranscriptLines | services/soap-generator/main.py:281-283 | splitting the formatted transcript on newlines gives back one line per final segment |
| Diseases.DatabaseNamesDistinct | services/disease-detection/main.py:234-305 | the disease database's names are distinct |
| Diseases.EntityOf | services/disease-detection/main.py:152-160 | a named-entity result becomes a DISEASE entity of its word and score exactly when its score exceeds 0.5 |
| Diseases.EntitiesConfident | services/disease-detection/main.py:151-160 | every extracted entity has confidence above 0.5 and comes from one of the results |
| Diseases.EntitiesKeepAll | services/disease-detection/main.py:151-160 | when every result scores above 0.5, all are kept, in order |
| Diseases.ExtractEntities | services/disease-detection/main.py:141-162 | a blank text gives no entities; otherwise the confident results, in order |
| Diseases.ConfidenceMap | services/disease-detection/main.py:332 | every entity's lower-cased text is a key of the confidence map |
| Diseases.ConfidenceMapLast | services/disease-detection/main.py:332 | the map holds the confidence of the last entity of each lower-cased text |
| Diseases.ConfidenceMapKeys | services/disease-detection/main.py:332 | every key is the lower-cased text of an entity |
| Diseases.AnalyzeClinicalText | services/disease-detection/main.py:198-210 | the classifier gives no analysis exactly when the text is blank |
| Diseases.MentionTwice | services/disease-detection/main.py:440-443 | recording the same source twice for a disease records it once |
| Diseases.HitsSound | services/disease-detection/main.py:434-435 | every matched term is one of the terms and occurs in the text |
| Diseases.HitsComplete | services/disease-detection/main.py:434-435 | every term that occurs in the text is matched |
| Diseases.WeightNonNegative | services/disease-detection/main.py:437-438 | with non-negative confidences, the weighted increments are non-negative |
| Diseases.MatchTerm | services/disease-detection/main.py:437-443 | a matched term adds weight times its confidence, is recorded as matched and records the source for the disease |
| Diseases.ScanKeywords | services/disease-detection/main.py:434-443 | the keyword loop matches exactly the occurring keywords, adds 2.0 times each one's confidence and records the source when one matched |
| Diseases.GateSteady | services/disease-detection/main.py:449 | the symptom gate reads the same for every symptom, since symptoms only add terms once it is open |
| Diseases.ScanSymptoms | services/disease-detection/main.py:446-456 | symptoms count only when a keyword matched or the clinical confidence exceeds 0.6, adding 0.6 times their confidence |
| Diseases.ScoreOne | services/disease-detection/main.py:430-460 | the body of the disease loop computes one disease's update to the tally |
| Diseases.SymptomGate | services/disease-detection/main.py:446-460 | with no keyword hit and clinical confidence at most 0.6, the disease is not scored |
| Diseases.SymptomsIgnored | services/disease-detection/main.py:446-451 | with the gate closed, only keywords count |
| Diseases.ScoreDiseaseEffect | services/disease-detection/main.py:429-460 | a disease with matched terms gets its score added; one without leaves the tally unchanged; no other disease is affected |
| Diseases.ScoreAllValid | services/disease-detection/main.py:414-460 | scoring keeps the tally's key order and dictionaries consistent |
| Diseases.ScoreAllNewKey | services/disease-detection/main.py:458-460 | a disease gains an entry only when some term of it matched |
| Diseases.ScoreAllMatchedKey | services/disease-detection/main.py:458-460 | a disease with a matched term has an entry afterwards |
| Diseases.ScoreAllMentionsOnce | services/disease-detection/main.py:440-456 | one scoring pass adds the source to a disease's mentions at most once |
| Diseases.PrevDiseaseEffect | services/disease-detection/main.py:366-371 | a diagnosis naming a disease adds 0.8 and one PREVIOUS_DIAGNOSIS mention; other diseases are unchanged |
| Diseases.PrevAllOther | services/disease-detection/main.py:366-371 | diseases outside the database are not touched by the previous-diagnosis loop |
| Diseases.PrevAllNamed | services/disease-detection/main.py:366-371 | one diagnosis adds 0.8 and one mention to each database disease it names, and nothing to the others |
| Diseases.PrevDiagnosesScore | services/disease-detection/main.py:365-368 | each database disease gains 0.8 per previous diagnosis naming it |
| Diseases.PrevDiagnosesMentions | services/disease-detection/main.py:365-371 | each database disease gains one PREVIOUS_DIAGNOSIS mention per naming diagnosis, without deduplication |
| Diseases.FinalTallyValid | services/disease-detection/main.py:318-371 | all sources together leave a consistent tally |
| Diseases.FinalTallyNonNegative | services/disease-detection/main.py:318-371 | with non-negative model confidences, every score is non-negative |
| Diseases.RankedOrder | services/disease-detection/main.py:375 | at most ten scored diseases, exactly ten when there are more, in non-increasing score order, each one scored; all of them when there are at most ten; no disease left out scores higher than one kept |
| Diseases.RankedStable | services/disease-detection/main.py:375 | diseases of equal score keep their insertion order |
| Diseases.Confidence | services/disease-detection/main.py:388 | confidence is min(score × 0.25, 1.0) |
| Diseases.ConfidenceMonotone | services/disease-detection/main.py:388 | a higher score never gives a lower confidence |
| Diseases.Lookup | services/disease-detection/main.py:376 | the database entry of a name, or none exactly when no entry has that name |
| Diseases.SupportingSound | services/disease-detection/main.py:379-382 | every supporting entity is an extracted entity whose lower-cased text contains a keyword or symptom of the disease |
| Diseases.SupportingComplete | services/disease-detection/main.py:379-382 | every such entity is supporting |
| Diseases.SupportingNone | services/disease-detection/main.py:379-382 | with no terms, nothing is supporting |
| Diseases.EvidenceSummaryCount | services/disease-detection/main.py:392 | the evidence summary reads `Detected from N source(s)` for the mention count N |
| Diseases.DetectionOfInfo | services/disease-detection/main.py:376-393 | a known disease's detection carries its codes, severity and supporting entities |
| Diseases.DetectionOfUnknown | services/disease-detection/main.py:376-393 | an unknown disease's detection has code Unknown, no SNOMED code, severity medium and no supporting entities |
| Diseases.DetectionsBounded | services/disease-detection/main.py:374-394 | at most ten detections, each of confidence at most 1, in non-increasing confidence order |
| Diseases.DetectionsScored | services/disease-detection/main.py:374-394 | each detection names a scored disease, with non-negative confidence when the scores are non-negative |
| Diseases.FormattedConfident | services/disease-detection/main.py:397-405 | every reported entity has confidence above 0.5 |
| Diseases.FormattedKeepsAll | services/disease-detection/main.py:397-405 | when all entities are confident, all are reported |
| Diseases.AllEntitiesReported | services/disease-detection/main.py:319-405 | every extracted entity is reported, since extraction already filters at 0.5 |
| Diseases.TagConfident | services/disease-detection/main.py:326-330 | every entity tagged with a source is confident |
| Diseases.AverageConfidence | services/disease-detection/main.py:506 | the average is 0.0 when there are no detections |
| Diseases.AverageConfidenceBounded | services/disease-detection/main.py:506 | the average of confidences in [0, 1] is in [0, 1] |
| Diseases.PresentSourcesExactly | services/disease-detection/main.py:509-519 | a source is listed exactly when its input is present |
| Diseases.PresentSourcesOrdered | services/disease-detection/main.py:509-519 | the sources are listed in the fixed order transcription, clinical notes, patient summary, lab results, previous diagnosis |
| Diseases.AnalysisConfidenceBounded | services/disease-detection/main.py:491-506 | the analysis confidence is between 0 and 1 |
| Diseases.DiseaseDetector.LoadDiseaseDatabase | services/disease-detection/main.py:232-305 | returns the ten-disease knowledge base; the table is a literal copy of the source's, so the contract names it, and `DatabaseNamesDistinct` is the fact proved about it |
| Diseases.DiseaseDetector.constructor | services/disease-detection/main.py:220-228 | the detector holds the disease database |
| Diseases.DiseaseDetector.ScoreDiseases | services/disease-detection/main.py:414-460 | the nested loops update the tally with every database disease's keyword and symptom score for one text |
| Diseases.DiseaseDetector.ScorePreviousDiagnoses | services/disease-detection/main.py:363-371 | the nested loops add the previous-diagnosis scores and mentions |
| Diseases.DiseaseDetector.MakeDetection | services/disease-detection/main.py:376-393 | builds the detection of one ranked disease |
| Diseases.DiseaseDetector.BuildDetections | services/disease-detection/main.py:374-394 | the loop builds one detection per ranked disease, in ranking order |
| Diseases.DiseaseDetector.ScoreWithEntities | services/disease-detection/main.py:324-333 | one text source adds its tagged entities and scores with their confidence map |
| Diseases.DiseaseDetector.ScoreSources | services/disease-detection/main.py:318-371 | the sources are scored in order into one tally, and the entities are collected |
| Diseases.DiseaseDetector.DetectDiseases | services/disease-detection/main.py:307-408 | the detections and reported entities of the final tally |
| Diseases.DiseaseDetector.SourcesAnalyzed | services/disease-detection/main.py:509-519 | the sequential appends list the present sources |
| Diseases.DiseaseDetector.AnalyzeTranscript | services/disease-detection/main.py:472-530 | the response carries the detection records, the entities, the average confidence and the sources analysed |
| Ranking.SortDesc | services/disease-detection/main.py:375 | the sort is a permutation of its input |
| Ranking.SortDescDescending | services/disease-detection/main.py:375 | the sorted keys do not increase |
| Ranking.SortDescStable | services/disease-detection/main.py:375 | elements of equal key keep their input order |
| Ranking.Take | services/disease-detection/main.py:375 | the first n elements, or all of them when fewer |
| Ranking.TakeSortedTop | services/disease-detection/main.py:375 | the first n of the sorted elements are n of them (all when fewer), and no element left out has a higher key than one kept |
| Transcription.CreateSession | services/transcription/main.py:338-376 | a session is created exactly when the chosen provider (the request's, else the default) is known and its key is set; the response has status created; every refusal is a 400 |
| Transcription.CreateSessionMissingAssemblyAIKey | services/transcription/main.py:342-343 | AssemblyAI without its key is refused with its own message |
| Transcription.CreateSessionMissingDeepgramKey | services/transcription/main.py:344-345 | Deepgram without its key is refused with its own message |
| Transcription.CreateSessionUnknownProvider | services/transcription/main.py:348-354 | an unknown provider is refused, naming the provider |
| Transcription.StartedServiceAccepts | services/transcription/main.py:55-58 | a service that started has some request it accepts |
| Transcription.FirstStopRegular | services/transcription/main.py:423-441 | every receipt before the first stop is ordinary data, and the receipt at the stop is not |
| Transcription.FramesShape | services/transcription/main.py:423-441 | the generator yields the data chunks up to the first stop in arrival order, followed by the end-of-stream marker on the sentinel or a timeout |
| Transcription.EndOfStreamOnce | services/transcription/main.py:423-441 | the marker is yielded exactly when the stream was signalled, and then only once and last |
| Transcription.AudioGenerator | services/transcription/main.py:420-448 | the loop yields the frames and counts the data chunks |
| Transcription.SentinelIndex | services/transcription/main.py:201-204 | the index of the first sentinel chunk, or the length when there is none |
| Transcription.FlattenEmpty | services/transcription/main.py:212-217 | the buffer is empty exactly when every chunk before the sentinel is empty |
| Transcription.BufferAudio | services/transcription/main.py:197-210 | the buffer is the concatenation of the chunks before the sentinel, and the count is their number |
| Transcription.BufferOfGenerator | services/transcription/main.py:201-206 | fed by the generator, the buffer holds exactly the data chunks that arrived before the stop |
| Transcription.WordRecordOf | services/transcription/main.py:292-298 | a word record defaults to "", 0.95, 0, 0 and no speaker |
| Transcription.MajorityExists | services/transcription/main.py:303-305 | non-empty speaker lists have a most frequent speaker |
| Transcription.MajorityUnique | services/transcription/main.py:303-305 | a strictly most frequent speaker is the one chosen |
| Transcription.ChooseSpeaker | services/transcription/main.py:305 | the chosen speaker has maximal count among the speakers |
| Transcription.FirstAlternative | services/transcription/main.py:266-275 | a channel is kept exactly when it has alternatives and the first one's transcript is non-empty; that first alternative is used |
| Transcription.BaseResult | services/transcription/main.py:280-300 | a result is final, from deepgram, with the alternative's transcript, its confidence or 0.95, and its words mapped when present |
| Transcription.BuildResult | services/transcription/main.py:280-305 | the result carries the majority speaker when some word has one, and no speaker otherwise |
| Transcription.MapChannels | services/transcription/main.py:266-308 | the loop yields one result per kept channel, in channel order |
| Transcription.TranscribeDeepgram | services/transcription/main.py:182-308 | an empty buffer gives no results; a status other than 200 is an error naming it; a response without channels gives no results; otherwise one result per kept channel |
| Transcription.ResultsFromChannels | services/transcription/main.py:266-308 | every result is final, from deepgram and has the non-empty transcript of some channel's first alternative |
| Transcription.Entries | services/transcription/main.py:601-609 | one entry per final segment |
| Transcription.GenerateFullTranscript | services/transcription/main.py:597-611 | the loop's output is the final segments' entries joined by blank lines |
| Transcription.FullTranscriptParagraphs | services/transcription/main.py:597-611 | the non-blank lines of the transcript are exactly the entries, one per final segment, for single-line segments |
| Text.Split | services/soap-generator/main.py:379 | splitting gives at least one piece and no piece holds the separator |
| Text.JoinSplit | services/soap-generator/main.py:379 | joining the pieces of a split with the separator gives back the text |
| Text.SplitJoin | services/soap-generator/main.py:379 | splitting separator-free pieces joined by the separator gives back the pieces |
| Text.LStripSet | services/soap-generator/main.py:467 | left-stripping a set removes exactly a leading run of its characters |
| Text.RStripSet | services/soap-generator/main.py:386 | right-stripping a set removes exactly a trailing run of its characters |
| Text.Lower | services/recommendations/main.py:397 | lower-casing maps each character |
| Text.Upper | services/soap-generator/main.py:387 | upper-casing maps each character |
| Text.AfterFirst | services/soap-generator/main.py:451 | the text after the first occurrence of the character, or the whole text without one |
| Text.SplitFirstWordBy | services/soap-generator/main.py:395 | a one-split on whitespace gives at most two pieces, none starting with whitespace, and none exactly when the text is blank |
| Text.ReplaceChar | services/soap-generator/main.py:395 | replacing one character by another changes exactly its occurrences |
| Text.NatToString | services/transcription/main.py:250 | the decimal rendering of a status code is a non-empty digit string without a leading zero |
| Text.ParseNatToString | services/disease-detection/main.py:392 | reading back a rendered count gives the count |

## Left out

- Machine-learning inference is not modelled; its results are inputs. This covers the BioBERT named-entity pipeline, the ClinicalBERT classifier, model loading and numpy conversion. The 512-character cut of the text passed to those models is not modelled either.
- Language-model calls, prompt templating and float formatting in the prompts are not modelled. The model's answer is an input string.
- Firestore, Pub/Sub, Cloud Storage, PDF generation, and the session-data variants of the recommendation and SOAP endpoints are I/O and are not modelled.
- FastAPI routes, the health and information endpoints, WebSocket accept/send/close and the aiohttp POST to Deepgram are network plumbing. The Deepgram reply is an input: a status code and a decoded JSON response.
- AssemblyAI streaming (`transcribe_assemblyai`) depends on threads and queues and is left out. So is the WebSocket handler's choice between the two transcription functions.
- The streaming analysis endpoint `analyze_stream` repeats the detection logic over server-sent events and is left out.
- Timestamps, session UUIDs and environment variables are parameters.
- Transcription.TranscribeDeepgram: the source reads the clock for each result; the model passes one timestamp to all results of a call.
- Exceptions are not modelled. This covers `detect_diseases` returning two empty lists, the HTTP 500 and 503 replies, and re-raised errors. The Deepgram status error is modelled as an `Err` result.
- Log messages, including the every-hundred-chunks progress logging, are not modelled.
- Dictionaries that the source mutates in place (scores, mentions, sections, the record in progress) are threaded as values through the methods. The model does not capture their aliasing.
- Optional strings that the source checks for truthiness are plain strings, with "" standing for absent. The Deepgram `is_final` flag and segment fields default as the source's `get` calls do.
- `lower()` and `upper()` map ASCII letters only. Full Unicode case mapping is not modelled.
- Entity `start` and `end` positions are kept as given and are not checked. A missing position defaults to 0.
- Recommendations.ClinicalRecommendationService.GetLabRecommendations: Python set iteration order is unspecified, so the contract fixes the members listed and not their order.
- Recommendations.ClinicalRecommendationService.GetLifestyleRecommendations: the same holds for the lifestyle set.
- Recommendations.ClinicalRecommendationService.GenerateRecommendationsFromData: for the same reason, the lab and lifestyle lists are fixed only up to order.
- Transcription.ChooseSpeaker: `max(set(speakers), key=speakers.count)` breaks ties by set iteration order. The model allows any speaker of maximal count.
