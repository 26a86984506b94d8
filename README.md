# vcf_copilot decision logic in Dafny

This project models the decision logic of `vcf_copilot`, a variant-interpretation pipeline. The pipeline reads VCF records, annotates each variant from ClinVar, gnomAD and Ensembl, classifies it with a simplified ACMG scheme, and reports the results. Network, file and library calls are not modelled. What those calls return is passed in as values instead.

The modules follow the program's files:

- `models.dfy` (`Models`): the four variant categories, the five classifications, the 28 ACMG criteria codes in declaration order, and the `Variant`, `ACMGResult` and `ReportConfig` records with their defaults.
- `scoring.dfy` (`Scoring`): the classifier.
  - The 28 evaluators run in order. Four are real rules (PVS1, PM2, PP3, BA1), and 24 placeholders are never met.
  - Then come the signed score, the five tiers, the confidence, the reasoning text, and the fallback result when an evaluator raises.
  - The loops of `_evaluate_criteria`, `_calculate_score`, `_calculate_confidence` and `_generate_reasoning` are methods. Each is proved equal to a specification function.
- `parser.dfy` (`Parser`): the record normaliser.
  - It covers variant-type selection, INFO flattening, the alias lookups of `_parse_record`, the skip-on-failure loop of `parse`, and the capped record scan of `validate`.
  - A raw VCF record is a datatype that stands in for the VCF reader's record object.
- `engine.dfy` (`Engine`): `annotate`, which merges the three source results into a copy of the variant, then `_extract_in_silico_predictions` and `get_annotation_summary`.
- `clinvar.dfy`, `gnomad.dfy`, `ensembl.dfy` (`ClinVar`, `Gnomad`, `Ensembl`): the query and identifier builders, and the defensive reading of the JSON responses.
- `report.dfy` (`Report`): `_filter_results`, `_generate_summary`, `_result_to_dict` and the format dispatch of `generate`.
- Shared helpers:
  - `json.dfy` (`Json`): Python's dynamic values as a JSON datatype, with `bool()`, `dict.get`, `in`, indexing and `str()`.
  - `strings.dfy` (`Strings`): `join`, `split`, `startswith`, `in`, decimal rendering and ASCII `upper()`.
  - `utf8.dfy` (`Utf8`): `bytes.decode('utf-8', errors='ignore')`.
  - `wrappers.dfy` (`Wrappers`): `Option` and `Result`.

Dynamic values are modelled as they are:

- `Json` values stand for the values the engine assigns without validation: the annotation fields of a `Variant` (gene, transcript, HGVS, impact, ClinVar significance and diseases, gnomAD AF) and the INFO values. So a field can hold a number or a list where the declared type says `str`.
- Where Python would raise on such a value, the model returns `Err`. Each `try`/`except` becomes the value its handler returns.
- Allele frequencies and predictor scores are `real`. Parsing a float from text (`float(s)`) and rendering a value as text (`str(x)`) are function parameters (`parseReal`, `str`, `showReal`). They are not defined here.

## Model

| member | source | states |
|---|---|---|
| Models.VariantTypesComplete | vcf_copilot/models.py:10-15 | There are exactly four variant categories: SNV, INDEL, CNV and SV. |
| Models.ClassificationsComplete | vcf_copilot/models.py:18-24 | There are exactly five classifications. Their labels are distinct, and each label is the one the source declares. |
| Models.CriteriaCatalogue | vcf_copilot/models.py:27-63 | There are 16 pathogenic and 12 benign codes, 28 in all. Every criterion appears exactly once in the declaration order. |
| Models.CriteriaGroups | vcf_copilot/models.py:27-63 | A criterion is pathogenic iff its code starts with 'P', and benign iff its code starts with 'B'. |
| Models.Position | vcf_copilot/models.py:27-63 | Every criterion has a declaration position below 28. |
| Models.PositionOfEach | vcf_copilot/models.py:27-63 | The criterion at position i has position i. |
| Models.AtPosition | vcf_copilot/models.py:27-63 | A criterion's position holds that criterion. |
| Models.NewVariant | vcf_copilot/models.py:66-99 | A new Variant has the given chrom, pos, ref, alt and category. Its INFO map is empty, its diseases and criteria lists are empty, and every other optional field is absent. |
| Models.DefaultReportConfig | vcf_copilot/models.py:123-130 | The default report is html, with max gnomAD AF 0.01, no minimum quality and no phenotype filter. Evidence and recommendations are on. |
| Scoring.OnlyHighMatches | vcf_copilot/scoring.py:342-344 | After upper-casing, a LOF term matches iff "HIGH" occurs, because the four lower-case terms can never match. |
| Scoring.IsLof | vcf_copilot/scoring.py:339-350 | A non-empty impact decides alone: LOF iff its upper-cased text contains HIGH, and a non-text impact raises. Only with an empty impact does an hgvs_p containing "Ter" count. |
| Scoring.HasLofMechanism | vcf_copilot/scoring.py:352-357 | True iff the gene is one of BRCA1, BRCA2, TP53, PTEN, APC, RB1, VHL. |
| Scoring.EvaluatePVS1 | vcf_copilot/scoring.py:163-181 | PVS1 is Very Strong. It is met iff the variant is LOF and its gene has a LOF mechanism, and it raises exactly when the LOF test raises. |
| Scoring.EvaluatePM2 | vcf_copilot/scoring.py:183-204 | PM2 is Moderate and met iff AF is present and below 0.0001. It raises iff AF is present but not comparable with a float. |
| Scoring.PresentCount | vcf_copilot/scoring.py:212-228 | At most three predictors are counted. |
| Scoring.DeleteriousCount | vcf_copilot/scoring.py:212-228 | The deleterious predictions never outnumber the present predictors. |
| Scoring.EvaluatePP3 | vcf_copilot/scoring.py:206-247 | PP3 is Supporting. It is met iff at least two present predictors are deleterious: CADD > 20, PolyPhen > 0.908, SIFT < 0.05. |
| Scoring.EvaluateBA1 | vcf_copilot/scoring.py:249-264 | BA1 is Standalone and met iff AF is present and above 0.05. It raises iff AF cannot be compared. |
| Scoring.Evaluate | vcf_copilot/scoring.py:163-337 | Each evaluator reports its own criterion with the strength from the table. Only PVS1, PM2, PP3 and BA1 can be met, and only PVS1, PM2 and BA1 can raise. |
| Scoring.EvaluateAll | vcf_copilot/scoring.py:117-161 | The run succeeds iff every evaluator does. It then gives one result per criterion, in order. |
| Scoring.EvaluateAllPrefixErr | vcf_copilot/scoring.py:117-161 | Once an evaluator raises, the whole run raises the same error. |
| Scoring.EvaluateCriteria | vcf_copilot/scoring.py:117-161 | The append loop yields the 28 evaluations in declaration order. |
| Scoring.EvaluateEach | vcf_copilot/scoring.py:127-161 | The loop over any list of criteria equals the in-order evaluation of that list. |
| Scoring.EvaluationsSucceed | vcf_copilot/scoring.py:80-103 | Evaluation succeeds iff the LOF test succeeds and AF is comparable. |
| Scoring.MetOnlyAtRules | vcf_copilot/scoring.py:130-159 | Only positions 0, 6, 13 and 16 (PVS1, PM2, PP3, BA1) can hold a met result. |
| Scoring.RulePositions | vcf_copilot/scoring.py:130-159 | The four rule results sit at positions 0, 6, 13 and 16. |
| Scoring.WeightFollowsStrength | vcf_copilot/scoring.py:359-382 | A weight is positive exactly for pathogenic codes. Its size follows the strength table: 8 for Very Strong or Standalone, 4 for Strong, 2 for Moderate, 1 for Supporting. |
| Scoring.CalculateScore | vcf_copilot/scoring.py:359-382 | The accumulation loop returns the sum of the weights of the met results. |
| Scoring.ScoreOfAppend | vcf_copilot/scoring.py:359-382 | The score is additive over concatenation. |
| Scoring.ScoreOfUnmet | vcf_copilot/scoring.py:363-365 | Unmet results contribute nothing. |
| Scoring.SparseScore | vcf_copilot/scoring.py:359-382 | For 28 results met only at the rule positions, the score is the sum of the four rule contributions. |
| Scoring.SparseMet | vcf_copilot/scoring.py:99 | For such results, the met list is the met rules in order. |
| Scoring.SparseConfidence | vcf_copilot/scoring.py:412-438 | For such results, a weighted met result exists iff PVS1, PM2 or PP3 is met. |
| Scoring.Tier | vcf_copilot/scoring.py:384-395 | The tiers are: ≥8 Pathogenic; 6–7 Likely Pathogenic; −5..5 Uncertain; −7..−6 Likely Benign; ≤−8 Benign. |
| Scoring.TierMonotone | vcf_copilot/scoring.py:384-395 | A higher score never gives a more benign tier. |
| Scoring.CalculateConfidence | vcf_copilot/scoring.py:412-438 | The loop returns 0.0 when no weighted criterion is met, and 1.0 otherwise, because the weighted sum and the total weight are always equal. |
| Scoring.GenerateReasoning | vcf_copilot/scoring.py:397-410 | The loop builds the reasoning text from the tier and the met results. |
| Scoring.ReasoningMentions | vcf_copilot/scoring.py:397-410 | The reasoning opens with "Classification: <tier>" and contains the line of every met criterion. |
| Scoring.Classify | vcf_copilot/scoring.py:70-115 | classify never raises. It returns the specified result for the same variant. |
| Scoring.ClassifyFails | vcf_copilot/scoring.py:105-115 | When an evaluator raises, the result is Uncertain Significance with no criteria, score 0, confidence 0.0, and reasoning starting "Classification failed: ". |
| Scoring.EvaluationsSparse | vcf_copilot/scoring.py:117-161 | A successful evaluation has 28 results, met only at positions 0, 6, 13 and 16. |
| Scoring.RuleFacts | vcf_copilot/scoring.py:117-161 | A successful evaluation is rule-shaped: its four possibly met results are the rules' own. |
| Scoring.MetCriteriaOfEvaluations | vcf_copilot/scoring.py:99 | The met criteria of a successful evaluation are the met rules, in order. |
| Scoring.ScoreOfEvaluations | vcf_copilot/scoring.py:359-382 | The score of a successful evaluation is the sum of the met rules' weights. |
| Scoring.ConfidenceOfEvaluations | vcf_copilot/scoring.py:412-438 | The confidence of a successful evaluation is 1.0 iff PVS1, PM2 or PP3 is met. |
| Scoring.RuleShapedCriteria | vcf_copilot/scoring.py:99 | The met criteria of rule-shaped results are the met rules, in order. |
| Scoring.RuleShapedScore | vcf_copilot/scoring.py:359-382 | Rule-shaped results score +8, +2, +1 and −8 for the met rules. |
| Scoring.RuleShapedConfidence | vcf_copilot/scoring.py:412-438 | Rule-shaped results have confidence 1.0 iff PVS1, PM2 or PP3 is met. |
| Scoring.ClassifyCriteria | vcf_copilot/scoring.py:96-103 | On success, the criteria are exactly the met rules, in declaration order. |
| Scoring.ClassifyScore | vcf_copilot/scoring.py:84-88 | On success, the score is the sum of the met rules' weights, and the classification is that score's tier. |
| Scoring.ClassifyConfidence | vcf_copilot/scoring.py:412-438 | On success, confidence is 1.0 iff PVS1, PM2 or PP3 is met. It is 0.0 when BA1 is met alone. |
| Scoring.ScoreRange | vcf_copilot/scoring.py:183-264 | PM2 and BA1 are never both met, and every score lies in [−8, 11]. |
| Scoring.PathogenicRules | tests/test_scoring.py:18-41 | The BRCA1/HIGH test variant meets PVS1, PM2 and PP3 but not BA1. |
| Scoring.PathogenicExample | tests/test_scoring.py:18-41 | That variant is Pathogenic, with score 11 and confidence 1.0. |
| Scoring.PathogenicExampleCriteria | tests/test_scoring.py:18-41 | Its criteria are [PVS1, PM2, PP3]. |
| Scoring.BenignRules | tests/test_scoring.py:43-63 | The common test variant meets only BA1. |
| Scoring.BenignExample | tests/test_scoring.py:43-63 | That variant is Benign, with score −8 and confidence 0.0. |
| Scoring.BenignExampleCriteria | tests/test_scoring.py:43-63 | Its criteria are [BA1]. |
| Scoring.ScorePvs1Pm2 | tests/test_scoring.py:145-167 | PVS1 and PM2 together score 10. |
| Parser.DetermineType | vcf_copilot/parser.py:115-130 | INDEL iff the lengths differ. SV iff the lengths are equal but not 1 and SVTYPE is truthy. Otherwise SNV. A missing ALT has length 0. |
| Parser.NeverCnv | vcf_copilot/parser.py:115-130 | The parser never yields CNV. A missing ALT with a non-empty REF gives INDEL. |
| Parser.Flatten | vcf_copilot/parser.py:142-162 | Lists, bytes and strings are stored as text. A single value keeps its truthiness. |
| Parser.FlattenSplit | vcf_copilot/parser.py:144-147 | A list of comma-free texts is recovered by splitting its stored value on commas. |
| Parser.FlattenUtf8 | vcf_copilot/parser.py:152-154 | Bytes that encode a text in UTF-8 are stored as that text. |
| Parser.FlattenInfo | vcf_copilot/parser.py:132-166 | The INFO map keeps its key set, and each value is flattened. |
| Parser.ParseInfo | vcf_copilot/parser.py:132-166 | The key-by-key loop builds the flattened INFO map. |
| Parser.Alias | vcf_copilot/parser.py:86-90 | A present primary key wins even with an empty value, then the fallback key, else None. |
| Parser.NonEmpty | vcf_copilot/parser.py:98-100 | A text column is kept iff it is present and non-empty. |
| Parser.ParseRecord | vcf_copilot/parser.py:64-113 | A record fails iff one of the five annotation values is not text. Otherwise chrom, pos and ref are copied. alt is the first ALT or "". A zero QUAL and empty id or filter become absent. INFO is flattened, the aliases fill gene, transcript, HGVS and impact, and every other field keeps its default. |
| Parser.SomesAll | vcf_copilot/parser.py:49-53 | When every record parses, nothing is dropped and order is kept. |
| Parser.SomesSound | vcf_copilot/parser.py:49-53 | Every kept value was present in the input. |
| Parser.ParseEach | vcf_copilot/parser.py:49-56 | There is one outcome per record: its parse. |
| Parser.Parse | vcf_copilot/parser.py:34-62 | The loop returns the Variants of the records that parse, in input order. |
| Parser.ParseAllAppend | vcf_copilot/parser.py:49-56 | Parsing is compositional over concatenated batches of records. |
| Parser.ParseAllOne | vcf_copilot/parser.py:50-56 | One record yields its Variant if it parses, and nothing otherwise. |
| Parser.ParseAllComplete | vcf_copilot/parser.py:49-56 | If every record parses, the result lists all of them in order. |
| Parser.ParseAllSound | vcf_copilot/parser.py:49-56 | Every Variant returned is the parse of some input record. |
| Parser.Checked | vcf_copilot/parser.py:203-213 | A record adds 0 to 4 errors, keeps the earlier ones, and adds none iff it has chrom, a positive pos, ref and alt. |
| Parser.HeaderErrors | vcf_copilot/parser.py:185-196 | The header adds no error iff it has samples and a #CHROM line. |
| Parser.ValidateSpec | vcf_copilot/parser.py:223-230 | is_valid holds iff there are no errors, and the sample count is reported. |
| Parser.CheckRecord | vcf_copilot/parser.py:202-213 | The four checks append their problems in order. |
| Parser.Validate | vcf_copilot/parser.py:168-230 | The counting loop with its early break returns the specified result. |
| Parser.ScanKeeps | vcf_copilot/parser.py:199-218 | The scan never loses an error it already has. |
| Parser.ScanStops | vcf_copilot/parser.py:199-218 | The scan counts no more records than it is given. It stops early only after the truncation marker. |
| Parser.ScanBound | vcf_copilot/parser.py:215-218 | Starting below the cap, the scan ends with at most 14 errors. |
| Parser.ScanClean | vcf_copilot/parser.py:199-218 | Complete records add no error, and all of them are counted. |
| Parser.ScanFlags | vcf_copilot/parser.py:203-213 | An incomplete record anywhere makes the scan report an error. |
| Parser.ValidateVerdict | vcf_copilot/parser.py:168-230 | A file is valid iff it has samples, a #CHROM line and only complete records, and then every record is counted. There are never more than 14 errors. |
| Engine.ExtractInSilico | vcf_copilot/annotators/engine.py:130-164 | The step-by-step updates leave the specified scores. |
| Engine.Annotate | vcf_copilot/annotators/engine.py:38-97 | The sequential merge into the copy returns the specified Variant. The input is a value and is never changed. |
| Engine.AnnotateKeepsRecord | vcf_copilot/annotators/engine.py:50-91 | The VCF columns, INFO, impact and classification fields are never touched. |
| Engine.AnnotateClinVar | vcf_copilot/annotators/engine.py:53-61 | A non-empty ClinVar result overwrites significance and diseases (default []). Otherwise both are kept. |
| Engine.AnnotateGnomad | vcf_copilot/annotators/engine.py:64-71 | A non-empty gnomAD result overwrites gnomad_af, even with None. Otherwise it is kept. |
| Engine.AnnotateEnsemblFills | vcf_copilot/annotators/engine.py:74-88 | Ensembl never replaces a set gene, transcript, hgvs_c or hgvs_p. It fills each empty one from its result. |
| Engine.SourceFailureIsolated | vcf_copilot/annotators/engine.py:58-91 | A source that raises has the same effect as one that found nothing. With all three failing, only the INFO extraction applies. |
| Engine.InSilicoCadd | vcf_copilot/annotators/engine.py:139-144 | CADD_RAW sets the CADD score iff it converts to a float. |
| Engine.InSilicoPrediction | vcf_copilot/annotators/engine.py:146-164 | For "p:f…", the text between the first and second ':' is parsed into the PolyPhen or SIFT score. |
| Engine.InSilicoNoColon | vcf_copilot/annotators/engine.py:146-164 | A value without ':' leaves the score unchanged. |
| Engine.CountCovered | vcf_copilot/annotators/engine.py:180-185 | A coverage count never exceeds the number of variants. |
| Engine.PercentBounds | vcf_copilot/annotators/engine.py:191 | A share of a positive total lies between 0 and 100, and is 100 for the whole. |
| Engine.SummaryAsWritten | vcf_copilot/annotators/engine.py:176-193 | As written, the summary raises iff there is at least one variant. See Findings. |
| Engine.AnnotationSummary | vcf_copilot/annotators/engine.py:176-193 | The corrected percentage loop returns the specified statistics. |
| Engine.SharesAt | vcf_copilot/annotators/engine.py:189-191 | Only percentage keys are added, one per count and only for a positive total, each the count's share. |
| Engine.SummaryFacts | vcf_copilot/annotators/engine.py:166-193 | The total is the number of variants, and each count is at most the total. Percentage keys exist iff the total is positive, and each lies in [0, 100]. |
| ClinVar.QueryParts | vcf_copilot/annotators/clinvar.py:132-147 | The query has 2 to 5 terms. |
| ClinVar.BuildSearchQuery | vcf_copilot/annotators/clinvar.py:122-149 | The appending builder returns the " AND "-join of the terms. |
| ClinVar.QueryShape | vcf_copilot/annotators/clinvar.py:122-149 | The query has one term per set field. It starts with "<chrom>[chr]" and contains the gene and quoted HGVS terms when they are set. |
| ClinVar.QueryKeepsChrPrefix | vcf_copilot/annotators/clinvar.py:134 | As written, chr17 stays in the query. See Findings. |
| ClinVar.NormalizedQueryParts | vcf_copilot/annotators/clinvar.py:132-147 | The normalised query also has 2 to 5 terms. |
| ClinVar.BuildNormalizedSearchQuery | vcf_copilot/annotators/clinvar.py:122-149 | The corrected builder joins the normalised terms. |
| ClinVar.NormalizedQueryExample | tests/test_parser.py:95-102 | For chr17:7577120, the corrected query is "17[chr] AND 7577120[pos]". It contains "17[chr]" and not "chr17". |
| ClinVar.SearchId | vcf_copilot/annotators/clinvar.py:108-120 | The id is idlist[0] when esearchresult holds a non-empty idlist, and None otherwise. |
| ClinVar.Pick | vcf_copilot/annotators/clinvar.py:209-217 | An item contributes its key's value iff it is a dict that has the key. |
| ClinVar.Harvest | vcf_copilot/annotators/clinvar.py:209-217 | A loop collects at most one name per item. |
| ClinVar.WalkLoop | vcf_copilot/annotators/clinvar.py:208-217 | The loop over one container equals its specification. |
| ClinVar.HarvestLoop | vcf_copilot/annotators/clinvar.py:209-217 | The for loop that stops at the first exception equals its specification. |
| ClinVar.HarvestStops | vcf_copilot/annotators/clinvar.py:206-220 | After the first exception, later items change nothing. |
| ClinVar.Dedupe | vcf_copilot/annotators/clinvar.py:221-222 | The result has no duplicates and the same members as its input. |
| ClinVar.ExtractDiseases | vcf_copilot/annotators/clinvar.py:194-222 | It raises iff some name is unhashable. Otherwise it returns the collected names, each once. |
| ClinVar.HarvestSound | vcf_copilot/annotators/clinvar.py:209-217 | Every name is the key's value in a dict item. |
| ClinVar.HarvestComplete | vcf_copilot/annotators/clinvar.py:209-217 | Over dict items, the loop never stops early and takes every item's value. |
| ClinVar.CollectedSound | vcf_copilot/annotators/clinvar.py:206-217 | Every disease comes from a phenotype's disease_name or a trait's trait_name. |
| ClinVar.WalkSound | vcf_copilot/annotators/clinvar.py:209-217 | Only a list's dict items contribute names. |
| ClinVar.CollectedComplete | vcf_copilot/annotators/clinvar.py:206-217 | When both lists hold dicts, every disease_name and trait_name is collected. |
| ClinVar.Details | vcf_copilot/annotators/clinvar.py:175-192 | Details exist only when result has the string id as a dict. They carry its significance and its duplicate-free diseases. |
| ClinVar.Diseases | vcf_copilot/annotators/clinvar.py:194-222 | This is the value form of the disease extraction, with the same Err, uniqueness and membership promises. |
| ClinVar.Unique | vcf_copilot/annotators/clinvar.py:222 | The list has each value once, with the same members. |
| ClinVar.AnnotateFacts | vcf_copilot/annotators/clinvar.py:43-63 | An annotation exists iff a truthy id was found and its details exist. It carries the id, the significance and a duplicate-free disease list. |
| Models.VariantKeyFields | vcf_copilot/annotators/gnomad.py:128-136 | The identifier "chrom<sep>pos<sep>ref<sep>alt" (gnomAD uses '-', Ensembl ':') splits back into its four fields when none of them holds the separator. |
| Models.VariantKeyExample | tests/test_parser.py:104-111 | chr17, A>G gives "17<sep><pos><sep>A<sep>G", holding no "chr". |
| Gnomad.QueryNamesVariant | vcf_copilot/annotators/gnomad.py:134-156 | The query asks for `variantId: "<id>"`. |
| Gnomad.QueryWithoutChr17 | tests/test_parser.py:104-111 | For chr17, A>G, "chr17" occurs nowhere in the whole GraphQL query. |
| Gnomad.QueryVariant | vcf_copilot/annotators/gnomad.py:100-106 | The variant is data.variant when both keys exist. |
| Gnomad.AnnotateSelection | vcf_copilot/annotators/gnomad.py:42-61 | af, ac and an come from the genome block when it has an af, and otherwise from the exome block. The reference genome is always GRCh38. |
| Gnomad.AnnotateAgrees | vcf_copilot/annotators/gnomad.py:47-51 | The as-written and corrected annotate agree unless genome is null. |
| Gnomad.ExomeOnlyLost | vcf_copilot/annotators/gnomad.py:47-51 | As written, an exome-only variant gets no annotation. Corrected, it gets AF 0.3. See Findings. |
| Gnomad.PopulationFrequencies | vcf_copilot/annotators/gnomad.py:158-184 | The dict-filling loop returns the specified frequencies, or {} on any failure. |
| Gnomad.CollectStops | vcf_copilot/annotators/gnomad.py:168-184 | A failure on one population makes the whole result fail. |
| Gnomad.CollectSound | vcf_copilot/annotators/gnomad.py:174-178 | Every stored frequency is present and comes from the population with that id. |
| Gnomad.CollectComplete | vcf_copilot/annotators/gnomad.py:174-178 | Every population with a frequency has its id stored. |
| Gnomad.FrequenciesNeverQueried | vcf_copilot/annotators/gnomad.py:170-171 | The query never selects populations, so a conforming response gives {}. |
| Gnomad.NeverCommonAsWritten | vcf_copilot/annotators/gnomad.py:198-203 | As written, a conforming response is never common. See Findings. |
| Gnomad.IsCommonFacts | vcf_copilot/annotators/gnomad.py:186-207 | Corrected: common iff the chosen block's af is a number above the threshold. No data means not common. |
| Gnomad.ExomeOnlyCommon | vcf_copilot/annotators/gnomad.py:186-207 | The exome-only AF-0.3 variant is common when corrected, but not as written. |
| Ensembl.FirstConsequence | vcf_copilot/annotators/ensembl.py:96-101 | A non-empty list yields its first element, and an empty or missing one yields None. |
| Ensembl.CopyPresentOther | vcf_copilot/annotators/ensembl.py:155-173 | Keys that are not copied are left alone. |
| Ensembl.CopyPresentAt | vcf_copilot/annotators/ensembl.py:155-173 | Each optional key is stored iff its source key exists, with that value. |
| Ensembl.ExtractTranscriptData | vcf_copilot/annotators/ensembl.py:143-173 | The update and the six conditional stores give the transcript's data. |
| Ensembl.ExtractAnnotationData | vcf_copilot/annotators/ensembl.py:125-183 | The key-by-key building returns the specified data. |
| Ensembl.Annotate | vcf_copilot/annotators/ensembl.py:33-57 | An annotation exists iff a truthy first consequence exists. |
| Ensembl.TranscriptFields | vcf_copilot/annotators/ensembl.py:145-152 | The six base keys are always stored. Absent values stay None, and consequence_terms defaults to []. |
| Ensembl.TranscriptOptional | vcf_copilot/annotators/ensembl.py:155-173 | hgvs_c, hgvs_p, protein_start/end and cdna_start/end are present iff their source keys are. |
| Ensembl.RegulatoryFacts | vcf_copilot/annotators/ensembl.py:139-181 | regulatory_consequences is stored iff it is non-empty and the transcript step did not raise. Without transcript consequences, no transcript key is stored. |
| Report.SubsequenceReflexive | vcf_copilot/report.py:104 | A list is a subsequence of itself. |
| Report.SubsequenceTransitive | vcf_copilot/report.py:102-119 | Filtering twice still gives a subsequence. |
| Report.SubsequenceLength | vcf_copilot/report.py:102-119 | A subsequence is never longer than the original list. |
| Report.SelectSubsequence | vcf_copilot/report.py:108-112 | A comprehension keeps its elements in order. |
| Report.SelectMembers | vcf_copilot/report.py:108-112 | A comprehension keeps exactly the elements that pass its test. |
| Report.SelectAll | vcf_copilot/report.py:108-112 | When every element passes, the comprehension keeps all of them. |
| Report.FrequencyOk | vcf_copilot/report.py:112 | The comparison raises iff AF is present but not a number. |
| Report.KeepFrequencyFacts | vcf_copilot/report.py:111-112 | The AF filter succeeds iff every AF is comparable, and then keeps those that pass. |
| Report.FilterFacts | vcf_copilot/report.py:102-119 | The result is an order-preserving subsequence. Every kept result has absent or sufficient quality, and absent or low enough AF. Every passing result is kept. Filtering fails iff a surviving AF is not a number. |
| Report.FilterIdentity | vcf_copilot/report.py:114-119 | With no thresholds, the input is returned unchanged. phenotype_filter has no effect. |
| Report.GenerateSummary | vcf_copilot/report.py:121-148 | The counting loop returns the specified summary. |
| Report.TallyCounts | vcf_copilot/report.py:131-135 | Each label's count is the number of results with that class. A label is present iff its count is positive. |
| Report.TallyKeys | vcf_copilot/report.py:131-135 | Every key of the tally is a classification label. |
| Report.CountsAddUp | vcf_copilot/report.py:131-142 | The five counts add up to the total. |
| Report.GeneBound | vcf_copilot/report.py:138-146 | There are no more distinct genes than results. |
| Report.ChromosomeBound | vcf_copilot/report.py:139-147 | There are at most as many distinct chromosomes as results, and for a non-empty list at least 1. |
| Report.SummaryFacts | vcf_copilot/report.py:121-148 | An empty input gives total 0 and no counts. The total equals the number of results, and the counts sum to it. gene_count and chromosome_count are the distinct sizes. Genes are exactly the non-empty genes. It fails iff a gene is unhashable. |
| Report.RecordClassification | vcf_copilot/report.py:171 | The record's classification label reads back as the result's class. |
| Report.RecordVariant | vcf_copilot/report.py:153-158 | The record carries chrom, pos, ref, alt, and a category value that reads back as the variant's category. |
| Report.TypeNameParses | vcf_copilot/report.py:158 | Each category's value names it back. |
| Report.RecordCriteria | vcf_copilot/report.py:172 | The record lists one code per criterion, in order. |
| Report.ResultToDictAlwaysFails | vcf_copilot/report.py:158 | As written, no result converts. See Findings. |
| Report.Records | vcf_copilot/report.py:93 | There is one record per kept result, in order. |
| Report.JsonReportAsWrittenFails | vcf_copilot/report.py:79-93 | As written, the JSON report fails iff some result was kept. |
| Report.GenerateFacts | vcf_copilot/report.py:33-52 | A format other than html or json fails with "Unsupported output format: <fmt>". Otherwise the document holds the filtered results, their summary and both counts. It succeeds iff filtering and the summary do. `Generate` is the corrected dispatch: its JSON branch uses the corrected `_result_to_dict` (see Findings). |
| Report.GenerateAsWrittenFacts | vcf_copilot/report.py:33-52 | As written, a JSON report succeeds iff filtering succeeds and keeps no result, and then equals the corrected one. A failed filter passes its error on. Other formats behave as in `Generate`. |
| Json.Get | vcf_copilot/annotators/engine.py:56 | dict.get gives the value, or None when the key is missing. |
| Json.GetOr | vcf_copilot/annotators/engine.py:57 | dict.get with a default gives the value, or the default when the key is missing. |
| Json.In | vcf_copilot/annotators/clinvar.py:111 | `in` tests substrings of text and keys of dicts, and raises on None, booleans and numbers. |
| Json.Index | vcf_copilot/annotators/clinvar.py:112 | Indexing succeeds iff the value is a dict with the key. |
| Json.Head | vcf_copilot/annotators/ensembl.py:99 | [0] succeeds iff the value is a non-empty list or text. A list gives its first item. |
| Strings.SplitJoin | vcf_copilot/parser.py:147 | Splitting a join gives the parts back when no part holds the separator. |
| Strings.SecondField | vcf_copilot/annotators/engine.py:151 | split(':')[1] is the text between the first two separators. |
| Strings.StripChr | vcf_copilot/annotators/gnomad.py:129-131 | One leading "chr" is removed, and other names are unchanged. |
| Strings.AsciiUpper | vcf_copilot/scoring.py:344 | Upper-casing keeps the length and leaves no lower-case ASCII letter. |
| Utf8.DecodeEncode | vcf_copilot/parser.py:154 | Decoding with errors ignored inverts UTF-8 encoding. |
| Utf8.DropsInvalidStart | vcf_copilot/parser.py:154 | A byte that cannot start a sequence is dropped. |

## Left out

- HTTP requests, `raise_for_status`, timeouts and rate limiting in the three annotators: the responses are inputs.
- Ensembl `get_gene_info` and `get_transcript_info`: these are network lookups with no logic beyond the request.
- `annotate_batch`: a thread pool whose completion order is not deterministic.
- The VCF reader: records are a datatype. `get_header_info` is reader glue. In `validate`, the header is reduced to the sample count and whether a `#CHROM` line exists.
- `validate`'s "Failed to read VCF file" error is left out: it is raised by the reader.
- Jinja templates, HTML and JSON file writing, template creation, the `generated_at` clock and `config.dict()` metadata: these are I/O and rendering.
- The command line, `example.py`, `setup.py`, the download script and the performance tests.
- `float()` parsing of text, `str()` of non-text values and the rendering of floats in INFO values. They are the parameters `parseReal`, `str` and `showReal`. Numbers inside log messages are not rendered.
- Scoring.GenerateReasoning: the AF in the PM2 and BA1 texts is rendered by `Strings.Fixed6`, which rounds the exact real value half to even. `f"{af:.6f}"` rounds the nearest binary double instead, so on a decimal tie the two can differ: AF 0.0000025 is stored just above the tie, and Python prints "0.000003" where the model gives "0.000002".
- Log messages and exception wording. A caught exception is modelled by the value its handler returns, and a propagated one by `Err`.
- Strings.AsciiUpper: upper-cases ASCII letters only, not Unicode letters.
- Python's hashing of JSON values: `1`, `1.0` and `True` are distinct values here.
- ClinVar.Dedupe: keeps first occurrences, whereas `list(set(...))` has an order set by hashing. Only membership and the absence of duplicates are stated.
- Report.GenerateFacts: describes the corrected JSON branch. As written, `_result_to_dict` raises for every kept result, which Report.GenerateAsWrittenFacts states.
- Report.SummaryFacts: genes and chromosomes are sets, so the order of `list(genes)` and `list(chromosomes)` is not modelled.
- JSON numbers do not distinguish `int` from `float`. `pos` and `score` are written as numbers.
- ClinVar ids other than strings are not modelled: `ClinVar.Details` gives None for a non-string id. Python can still find such an id, for example an int index into a list-valued `result`.
- Outer `except` handlers that no modelled input can reach.
- The fields `id`, `filter`, `qual` and `acmg_*` are carried but not used by the modelled logic.

## Findings

Code and tests also disagree in one place that is not listed below. `tests/test_scoring.py:63` expects a positive confidence for the common variant. The code gives 0.0, because BA1's Standalone strength carries no confidence weight, and the model follows the code (`Scoring.BenignExample`).

| source | as written | input that shows it | evidently intended | confidence | as-written member | corrected member |
|---|---|---|---|---|---|---|
| vcf_copilot/annotators/engine.py:189-191 | adds `<key>_percentage` entries to `stats` while iterating over it, which raises RuntimeError (dictionary changed size) | any non-empty variant list | one percentage per count, computed over a snapshot of the keys | not executed | Engine.SummaryAsWritten | Engine.AnnotationSummary |
| vcf_copilot/annotators/clinvar.py:134 | the chromosome goes into the query with its "chr" prefix | chr17:7577120 A>G gives "chr17[chr] AND 7577120[pos]" | "17[chr] ...", as tests/test_parser.py:95-102 expects and as the other annotators normalise | not executed | ClinVar.QueryKeepsChrPrefix | ClinVar.NormalizedQueryExample |
| vcf_copilot/annotators/gnomad.py:202-203 | reads a top-level `allele_frequency` that the query never selects | any response to the query, e.g. a variant with genome af 0.3 | use the genome or exome frequency that `annotate` selects | not executed | Gnomad.NeverCommonAsWritten | Gnomad.IsCommonFacts |
| vcf_copilot/report.py:158 | `variant_type.value` on the plain string stored under `use_enum_values` (models.py:101-102), which raises AttributeError | any result, so `generate` fails for any JSON report that keeps a result (Report.GenerateAsWrittenFacts) | write the category's value; `Generate` uses this corrected conversion | not executed | Report.ResultToDictAlwaysFails | Report.RecordVariant |
| vcf_copilot/annotators/gnomad.py:47-51 | `get('genome', {})` returns None when the block is `null`, and `.get('af')` then raises | `{"data": {"variant": {"genome": null, "exome": {"af": 0.3}}}}` | fall back to the exome block | not executed | Gnomad.ExomeOnlyLost | Gnomad.AnnotateSelection |
