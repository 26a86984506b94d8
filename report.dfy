/** The report generator without its templates and files: the filtering of
    results by quality and population frequency, the summary statistics,
    the dictionary each result becomes in a JSON report and the choice of
    output format. A report is the data the template or the JSON file is
    made from. */
module Report {
  import opened Wrappers
  import opened Json
  import opened Models

  // ---------------------------------------------------------------------
  // Filtering

  /** `xs` is `ys` with some elements removed and the rest in order. */
  predicate Subsequence<T(==)>(xs: seq<T>, ys: seq<T>)
    decreases |ys|
  {
    if ys == [] then xs == []
    else (Subsequence(xs, ys[..|ys| - 1]) ||
          (xs != [] && xs[|xs| - 1] == ys[|ys| - 1] && Subsequence(xs[..|xs| - 1], ys[..|ys| - 1])))
  }

  lemma {:induction false} SubsequenceReflexive<T>(xs: seq<T>)
    ensures Subsequence(xs, xs)
    decreases |xs|
  {
    if xs != [] {
      SubsequenceReflexive(xs[..|xs| - 1]);
    }
  }

  lemma {:induction false} SubsequenceTransitive<T>(a: seq<T>, b: seq<T>, c: seq<T>)
    requires Subsequence(a, b) && Subsequence(b, c)
    ensures Subsequence(a, c)
    decreases |c|
  {
    if c == [] {
    } else if Subsequence(b, c[..|c| - 1]) {
      SubsequenceTransitive(a, b, c[..|c| - 1]);
    } else {
      var b' := b[..|b| - 1];
      if Subsequence(a, b') {
        SubsequenceTransitive(a, b', c[..|c| - 1]);
      } else {
        SubsequenceTransitive(a[..|a| - 1], b', c[..|c| - 1]);
      }
    }
  }

  /** The two tests a result can be filtered by. */
  datatype Test = MinQuality(minQuality: real) | MaxFrequency(maxAf: real)

  /** Whether a result passes a test without the test raising. */
  predicate Passes(r: ACMGResult, test: Test)
  {
    match test
    case MinQuality(minQuality) => QualityOk(r, minQuality)
    case MaxFrequency(maxAf) => FrequencyOk(r.variant.gnomadAf, maxAf) == Ok(true)
  }

  /** A list comprehension `[r for r in rs if test(r)]` whose test does not
      raise. */
  function Select(rs: seq<ACMGResult>, test: Test): seq<ACMGResult>
  {
    if rs == [] then []
    else Select(rs[..|rs| - 1], test) + (if Passes(rs[|rs| - 1], test) then [rs[|rs| - 1]] else [])
  }

  /** A comprehension keeps its elements in order. */
  lemma {:induction false} SelectSubsequence(rs: seq<ACMGResult>, test: Test)
    ensures Subsequence(Select(rs, test), rs)
  {
    if rs != [] {
      var init := rs[..|rs| - 1];
      SelectSubsequence(init, test);
      var out := Select(rs, test);
      if Passes(rs[|rs| - 1], test) {
        assert out == Select(init, test) + [rs[|rs| - 1]];
        assert out[..|out| - 1] == Select(init, test);
        assert Subsequence(out[..|out| - 1], init);
      } else {
        assert out == Select(init, test);
      }
    }
  }

  /** A comprehension keeps exactly the elements that pass its test. */
  lemma {:induction false} SelectMembers(rs: seq<ACMGResult>, test: Test)
    ensures forall r :: r in Select(rs, test) <==> r in rs && Passes(r, test)
  {
    if rs != [] {
      var init := rs[..|rs| - 1];
      var last := rs[|rs| - 1];
      SelectMembers(init, test);
      assert rs == init + [last];
      forall r ensures r in Select(rs, test) <==> r in rs && Passes(r, test) {
        assert r in rs <==> r in init || r == last;
      }
    }
  }

  /** When every element passes, the comprehension keeps them all. */
  lemma {:induction false} SelectAll(rs: seq<ACMGResult>, test: Test)
    requires forall r :: r in rs ==> Passes(r, test)
    ensures Select(rs, test) == rs
  {
    if rs != [] {
      var init := rs[..|rs| - 1];
      assert rs == init + [rs[|rs| - 1]];
      SelectAll(init, test);
    }
  }

  /** `r.variant.qual is None or r.variant.qual >= min_quality`. */
  predicate QualityOk(r: ACMGResult, minQuality: real)
  {
    r.variant.qual.None? || r.variant.qual.value >= minQuality
  }

  /** `af is None or af <= max_gnomad_af`; `Err` is the `TypeError` of
      comparing anything but a number with a float. */
  function FrequencyOk(af: Json, maxAf: real): (r: Result<bool>)
    ensures r.Err? <==> af != JNull && AsNumber(af).None?
  {
    if af == JNull then Ok(true)
    else if AsNumber(af).Some? then Ok(AsNumber(af).value <= maxAf)
    else Err("TypeError: '<=' not supported")
  }

  /** The frequency comprehension: it raises as soon as one frequency
      cannot be compared. */
  function KeepFrequency(rs: seq<ACMGResult>, maxAf: real): Result<seq<ACMGResult>>
  {
    if rs == [] then Ok([])
    else
      var prior := KeepFrequency(rs[..|rs| - 1], maxAf);
      var last := rs[|rs| - 1];
      if prior.Err? then prior
      else match FrequencyOk(last.variant.gnomadAf, maxAf)
        case Err(e) => Err(e)
        case Ok(keep) => Ok(prior.value + (if keep then [last] else []))
  }

  /** The frequency comprehension fails exactly when some frequency cannot
      be compared, and otherwise keeps the results it accepts. */
  lemma {:induction false} KeepFrequencyFacts(rs: seq<ACMGResult>, maxAf: real)
    ensures KeepFrequency(rs, maxAf).Ok? <==> forall r :: r in rs ==> FrequencyOk(r.variant.gnomadAf, maxAf).Ok?
    ensures KeepFrequency(rs, maxAf).Ok? ==>
      KeepFrequency(rs, maxAf).value == Select(rs, MaxFrequency(maxAf))
  {
    if rs != [] {
      var init := rs[..|rs| - 1];
      var last := rs[|rs| - 1];
      KeepFrequencyFacts(init, maxAf);
      assert rs == init + [last];
      assert (forall r :: r in rs ==> FrequencyOk(r.variant.gnomadAf, maxAf).Ok?) <==>
        (forall r :: r in init ==> FrequencyOk(r.variant.gnomadAf, maxAf).Ok?) &&
        FrequencyOk(last.variant.gnomadAf, maxAf).Ok?;
    }
  }

  /** `_filter_results`: the quality filter when a minimum is set, then the
      frequency filter when a maximum is set; the phenotype filter does
      nothing. */
  function FilterResults(results: seq<ACMGResult>, config: ReportConfig): Result<seq<ACMGResult>>
  {
    var byQuality :=
      if config.minQuality.Some? then Select(results, MinQuality(config.minQuality.value)) else results;
    if config.maxGnomadAf.Some? then KeepFrequency(byQuality, config.maxGnomadAf.value)
    else Ok(byQuality)
  }

  /** What filtering keeps: an order-preserving part of the input in which
      every result has no quality or enough of it, and no frequency or a
      low enough one; it keeps every result that passes both tests, and it
      fails only when a frequency it has to compare is not a number. */
  lemma FilterFacts(results: seq<ACMGResult>, config: ReportConfig)
    ensures var f := FilterResults(results, config);
      f.Ok? ==> Subsequence(f.value, results)
    ensures var f := FilterResults(results, config);
      f.Ok? ==> forall r :: r in f.value ==>
        r in results &&
        (config.minQuality.Some? ==> QualityOk(r, config.minQuality.value)) &&
        (config.maxGnomadAf.Some? ==>
           (r.variant.gnomadAf == JNull ||
            (AsNumber(r.variant.gnomadAf).Some? && AsNumber(r.variant.gnomadAf).value <= config.maxGnomadAf.value)))
    ensures var f := FilterResults(results, config);
      f.Ok? ==> forall r ::
        (r in results &&
         (config.minQuality.Some? ==> QualityOk(r, config.minQuality.value)) &&
         (config.maxGnomadAf.Some? ==> FrequencyOk(r.variant.gnomadAf, config.maxGnomadAf.value) == Ok(true)))
        ==> r in f.value
    ensures FilterResults(results, config).Err? <==>
      config.maxGnomadAf.Some? && exists r :: (r in results &&
        (config.minQuality.Some? ==> QualityOk(r, config.minQuality.value)) &&
        r.variant.gnomadAf != JNull && AsNumber(r.variant.gnomadAf).None?)
  {
    var byQuality :=
      if config.minQuality.Some? then Select(results, MinQuality(config.minQuality.value)) else results;
    if config.minQuality.Some? {
      SelectSubsequence(results, MinQuality(config.minQuality.value));
      SelectMembers(results, MinQuality(config.minQuality.value));
    } else {
      SubsequenceReflexive(results);
    }
    if config.maxGnomadAf.Some? {
      var keep := MaxFrequency(config.maxGnomadAf.value);
      KeepFrequencyFacts(byQuality, config.maxGnomadAf.value);
      SelectSubsequence(byQuality, keep);
      SelectMembers(byQuality, keep);
      if FilterResults(results, config).Ok? {
        SubsequenceTransitive(Select(byQuality, keep), byQuality, results);
      }
    }
  }

  /** With neither threshold set, filtering returns its input unchanged,
      and a phenotype filter never changes the outcome. */
  lemma FilterIdentity(results: seq<ACMGResult>, config: ReportConfig, phenotype: Option<string>)
    ensures config.minQuality.None? && config.maxGnomadAf.None? ==> FilterResults(results, config) == Ok(results)
    ensures FilterResults(results, config.(phenotypeFilter := phenotype)) == FilterResults(results, config)
  {
  }

  // ---------------------------------------------------------------------
  // Summary

  /** The summary statistics: per-label counts, the distinct non-empty
      genes and the distinct chromosomes; the two counts are absent from
      the summary of an empty list. */
  datatype Summary = Summary(
    total: nat,
    classifications: map<string, nat>,
    genes: set<Json>,
    chromosomes: set<string>,
    geneCount: Option<nat>,
    chromosomeCount: Option<nat>)

  /** The classification counts after tallying `rs` in order. */
  function Tally(rs: seq<ACMGResult>): map<string, nat>
  {
    if rs == [] then map[]
    else
      var counts := Tally(rs[..|rs| - 1]);
      var name := Label(rs[|rs| - 1].classification);
      counts[name := (if name in counts then counts[name] else 0) + 1]
  }

  /** How many results have classification `c`. */
  function Count(rs: seq<ACMGResult>, c: Classification): nat
  {
    if rs == [] then 0
    else Count(rs[..|rs| - 1], c) + (if rs[|rs| - 1].classification == c then 1 else 0)
  }

  /** The count the tally holds for a label, zero when it has none. */
  function Tallied(counts: map<string, nat>, c: Classification): nat
  {
    if Label(c) in counts then counts[Label(c)] else 0
  }

  /** The non-empty genes, as a set. */
  function GeneSet(rs: seq<ACMGResult>): set<Json>
  {
    set r | r in rs && Truthy(r.variant.gene) :: r.variant.gene
  }

  /** The chromosomes, as a set. */
  function ChromosomeSet(rs: seq<ACMGResult>): set<string>
  {
    set r | r in rs :: r.variant.chrom
  }

  /** Whether every non-empty gene can go into a set. */
  predicate GenesHashable(rs: seq<ACMGResult>)
  {
    forall r :: r in rs && Truthy(r.variant.gene) ==> Hashable(r.variant.gene)
  }

  /** What `_generate_summary` returns. */
  function SummaryOf(rs: seq<ACMGResult>): Result<Summary>
  {
    if rs == [] then Ok(Summary(0, map[], {}, {}, None, None))
    else if !GenesHashable(rs) then Err("TypeError: unhashable type")
    else Ok(Summary(|rs|, Tally(rs), GeneSet(rs), ChromosomeSet(rs),
                    Some(|GeneSet(rs)|), Some(|ChromosomeSet(rs)|)))
  }

  /** `_generate_summary`, counting classifications result by result. */
  method GenerateSummary(results: seq<ACMGResult>) returns (summary: Result<Summary>)
    ensures summary == SummaryOf(results)
  {
    if results == [] {
      return Ok(Summary(0, map[], {}, {}, None, None));
    }
    var classifications: map<string, nat> := map[];
    for i := 0 to |results|
      invariant classifications == Tally(results[..i])
    {
      assert results[..i + 1][..i] == results[..i];
      var classification := Label(results[i].classification);
      classifications := classifications[classification :=
        (if classification in classifications then classifications[classification] else 0) + 1];
    }
    assert results[..|results|] == results;
    if !GenesHashable(results) {
      return Err("TypeError: unhashable type");
    }
    var genes := set r | r in results && Truthy(r.variant.gene) :: r.variant.gene;
    var chromosomes := set r | r in results :: r.variant.chrom;
    summary := Ok(Summary(|results|, classifications, genes, chromosomes, Some(|genes|), Some(|chromosomes|)));
  }

  /** The tally holds, under each label, the number of results with that
      classification, and no label without results. */
  lemma {:induction false} TallyCounts(rs: seq<ACMGResult>, c: Classification)
    ensures Label(c) in Tally(rs) <==> Count(rs, c) > 0
    ensures Tallied(Tally(rs), c) == Count(rs, c)
  {
    if rs != [] {
      TallyCounts(rs[..|rs| - 1], c);
      ClassificationsComplete();
    }
  }

  /** Every key of the tally is a classification label. */
  lemma {:induction false} TallyKeys(rs: seq<ACMGResult>)
    ensures forall k :: k in Tally(rs) ==> exists c :: Label(c) == k
  {
    if rs != [] {
      TallyKeys(rs[..|rs| - 1]);
    }
  }

  /** The five counts add up to the number of results. */
  lemma {:induction false} CountsAddUp(rs: seq<ACMGResult>)
    ensures Count(rs, Pathogenic) + Count(rs, LikelyPathogenic) + Count(rs, UncertainSignificance) +
      Count(rs, LikelyBenign) + Count(rs, Benign) == |rs|
  {
    if rs != [] {
      CountsAddUp(rs[..|rs| - 1]);
    }
  }

  /** There are no more distinct genes than results. */
  lemma {:induction false} GeneBound(rs: seq<ACMGResult>)
    ensures |GeneSet(rs)| <= |rs|
  {
    if rs != [] {
      var init := rs[..|rs| - 1];
      var last := rs[|rs| - 1];
      GeneBound(init);
      forall g | g in GeneSet(rs) ensures g in GeneSet(init) + {last.variant.gene} {
        var r :| r in rs && Truthy(r.variant.gene) && r.variant.gene == g;
        if r != last {
          assert r in init;
        }
      }
      SetBound(GeneSet(rs), GeneSet(init), last.variant.gene);
    }
  }

  /** There are no more distinct chromosomes than results, and at least
      one when there is a result. */
  lemma {:induction false} ChromosomeBound(rs: seq<ACMGResult>)
    ensures |ChromosomeSet(rs)| <= |rs|
    ensures rs != [] ==> rs[0].variant.chrom in ChromosomeSet(rs) && |ChromosomeSet(rs)| >= 1
  {
    if rs != [] {
      var init := rs[..|rs| - 1];
      var last := rs[|rs| - 1];
      ChromosomeBound(init);
      forall c | c in ChromosomeSet(rs) ensures c in ChromosomeSet(init) + {last.variant.chrom} {
        var r :| r in rs && r.variant.chrom == c;
        if r != last {
          assert r in init;
        }
      }
      SetBound(ChromosomeSet(rs), ChromosomeSet(init), last.variant.chrom);
    }
  }

  /** A set inside another set plus one element is at most one larger. */
  lemma SetBound<T>(a: set<T>, b: set<T>, x: T)
    requires a <= b + {x}
    ensures |a| <= |b| + 1
  {
    assert |b + {x}| <= |b| + 1;
    SubsetCardinality(a, b + {x});
  }

  lemma {:induction false} SubsetCardinality<T>(a: set<T>, b: set<T>)
    requires a <= b
    ensures |a| <= |b|
  {
    if a != {} {
      var x :| x in a;
      SubsetCardinality(a - {x}, b - {x});
    }
  }

  /** The summary's promises: the total is the number of results, the
      per-class counts are the numbers of results in each class and add up
      to the total, and the gene and chromosome counts are the sizes of the
      distinct sets and at most the total. An empty list has total 0 and no
      class counts. The summary fails only on a gene that cannot be hashed. */
  lemma SummaryFacts(rs: seq<ACMGResult>)
    ensures rs == [] ==> SummaryOf(rs) == Ok(Summary(0, map[], {}, {}, None, None))
    ensures SummaryOf(rs).Err? <==> !GenesHashable(rs)
    ensures var s := SummaryOf(rs);
      s.Ok? ==>
        s.value.total == |rs| &&
        (forall c :: Tallied(s.value.classifications, c) == Count(rs, c)) &&
        Tallied(s.value.classifications, Pathogenic) + Tallied(s.value.classifications, LikelyPathogenic) +
        Tallied(s.value.classifications, UncertainSignificance) + Tallied(s.value.classifications, LikelyBenign) +
        Tallied(s.value.classifications, Benign) == s.value.total
    ensures var s := SummaryOf(rs);
      s.Ok? && rs != [] ==>
        s.value.geneCount == Some(|s.value.genes|) && s.value.chromosomeCount == Some(|s.value.chromosomes|) &&
        |s.value.genes| <= s.value.total && 1 <= |s.value.chromosomes| <= s.value.total &&
        (forall g :: g in s.value.genes <==> exists r :: r in rs && Truthy(r.variant.gene) && r.variant.gene == g)
  {
    forall c ensures Tallied(Tally(rs), c) == Count(rs, c) {
      TallyCounts(rs, c);
    }
    CountsAddUp(rs);
    GeneBound(rs);
    ChromosomeBound(rs);
  }

  // ---------------------------------------------------------------------
  // JSON records

  /** An optional float as JSON. */
  function Number(x: Option<real>): Json
  {
    if x.Some? then JNum(x.value) else JNull
  }

  /** The variant part of a result's record, apart from its category. */
  function VariantRecord(v: Variant): map<string, Json>
  {
    map["chrom" := JStr(v.chrom), "pos" := JNum(v.pos as real), "ref" := JStr(v.ref), "alt" := JStr(v.alt),
        "gene" := v.gene, "transcript" := v.transcript, "hgvs_c" := v.hgvsC, "hgvs_p" := v.hgvsP,
        "impact" := v.impact, "clinvar_significance" := v.clinvarSignificance,
        "clinvar_diseases" := v.clinvarDiseases, "gnomad_af" := v.gnomadAf,
        "cadd_score" := Number(v.caddScore), "polyphen_score" := Number(v.polyphenScore),
        "sift_score" := Number(v.siftScore)]
  }

  /** A result's record with the given value for the variant category. */
  function RecordWith(r: ACMGResult, variantType: Json): map<string, Json>
  {
    map["variant" := JObj(VariantRecord(r.variant)["variant_type" := variantType]),
        "classification" := JStr(Label(r.classification)),
        "criteria" := JArr(seq(|r.criteria|, i requires 0 <= i < |r.criteria| => JStr(Code(r.criteria[i])))),
        "score" := JNum(r.score as real),
        "reasoning" := JStr(r.reasoning),
        "confidence" := JNum(r.confidence)]
  }

  /** `_result_to_dict` as evidently intended: the variant category written
      as its value. */
  function ResultToDict(r: ACMGResult): Json
  {
    JObj(RecordWith(r, JStr(TypeName(r.variant.variantType))))
  }

  /** The classification a label names, if any. */
  function ParseLabel(s: string): Option<Classification>
  {
    if s == "Pathogenic" then Some(Pathogenic)
    else if s == "Likely Pathogenic" then Some(LikelyPathogenic)
    else if s == "Uncertain Significance" then Some(UncertainSignificance)
    else if s == "Likely Benign" then Some(LikelyBenign)
    else if s == "Benign" then Some(Benign)
    else None
  }

  /** The variant category a value names, if any. */
  function ParseTypeName(s: string): Option<VariantType>
  {
    if s == "SNV" then Some(SNV)
    else if s == "INDEL" then Some(INDEL)
    else if s == "CNV" then Some(CNV)
    else if s == "SV" then Some(SV)
    else None
  }

  /** A record gives back the result's classification. */
  lemma RecordClassification(r: ACMGResult)
    ensures var d := ResultToDict(r);
      d.JObj? && "classification" in d.fields && d.fields["classification"].JStr? &&
      ParseLabel(d.fields["classification"].s) == Some(r.classification)
  {
  }

  /** A record gives back the variant's identity and category. */
  lemma RecordVariant(r: ACMGResult)
    ensures var d := ResultToDict(r);
      d.JObj? && "variant" in d.fields && d.fields["variant"].JObj? &&
      var v := d.fields["variant"].fields;
      v.Keys >= {"chrom", "pos", "ref", "alt", "variant_type"} &&
      v["chrom"] == JStr(r.variant.chrom) && v["pos"] == JNum(r.variant.pos as real) &&
      v["ref"] == JStr(r.variant.ref) && v["alt"] == JStr(r.variant.alt) &&
      v["variant_type"].JStr? && ParseTypeName(v["variant_type"].s) == Some(r.variant.variantType)
  {
    TypeNameParses(r.variant.variantType);
    var v := VariantRecord(r.variant)["variant_type" := JStr(TypeName(r.variant.variantType))];
    assert ResultToDict(r).fields["variant"] == JObj(v);
  }

  /** Each category's value names it back. */
  lemma TypeNameParses(t: VariantType)
    ensures ParseTypeName(TypeName(t)) == Some(t)
  {
  }

  /** A record lists one code per criterion, in order. */
  lemma RecordCriteria(r: ACMGResult)
    ensures var d := ResultToDict(r);
      d.JObj? && "criteria" in d.fields && d.fields["criteria"].JArr? &&
      var cs := d.fields["criteria"].items;
      |cs| == |r.criteria| && forall i :: 0 <= i < |r.criteria| ==> cs[i] == JStr(Code(r.criteria[i]))
  {
  }

  /** The value Pydantic stores for the variant category: with enum values
      in use, the plain string rather than the enumeration member. */
  function StoredVariantType(v: Variant): Json
  {
    JStr(TypeName(v.variantType))
  }

  /** The `.value` attribute of a stored value: strings have none. */
  function ValueAttribute(j: Json): Result<Json>
  {
    if j.JStr? then Err("AttributeError: 'str' object has no attribute 'value'")
    else Ok(j)
  }

  /** `_result_to_dict` as written: it asks the stored variant category
      for `.value`. */
  function ResultToDictAsWritten(r: ACMGResult): Result<Json>
  {
    match ValueAttribute(StoredVariantType(r.variant))
    case Err(e) => Err(e)
    case Ok(variantType) => Ok(JObj(RecordWith(r, variantType)))
  }

  /** As written, no result can be turned into a record. */
  lemma ResultToDictAlwaysFails(r: ACMGResult)
    ensures ResultToDictAsWritten(r).Err?
  {
  }

  // ---------------------------------------------------------------------
  // Reports

  /** The data a report is rendered or written from. */
  datatype Document =
    | Html(results: seq<ACMGResult>, summary: Summary, totalVariants: nat, filteredVariants: nat)
    | JsonDocument(summary: Summary, variants: seq<Json>, totalVariants: nat, filteredVariants: nat)

  /** The records of the JSON report, one per kept result, in order. */
  function Records(rs: seq<ACMGResult>): (out: seq<Json>)
    ensures |out| == |rs|
    ensures forall i :: 0 <= i < |rs| ==> out[i] == ResultToDict(rs[i])
  {
    seq(|rs|, i requires 0 <= i < |rs| => ResultToDict(rs[i]))
  }

  /** The JSON report's records as written: the first result raises. */
  function RecordsAsWritten(rs: seq<ACMGResult>): Result<seq<Json>>
  {
    if rs == [] then Ok([])
    else
      var rest := RecordsAsWritten(rs[1..]);
      match ResultToDictAsWritten(rs[0])
      case Err(e) => Err(e)
      case Ok(record) =>
        match rest
        case Err(e) => Err(e)
        case Ok(records) => Ok([record] + records)
  }

  /** As written, a JSON report fails whenever filtering keeps a result. */
  lemma JsonReportAsWrittenFails(rs: seq<ACMGResult>)
    ensures RecordsAsWritten(rs).Err? <==> rs != []
  {
    if rs != [] {
      ResultToDictAlwaysFails(rs[0]);
    }
  }

  /** `generate`: an HTML or JSON document, and an error for any other
      format. */
  function Generate(results: seq<ACMGResult>, config: ReportConfig): Result<Document>
  {
    if config.outputFormat == "html" || config.outputFormat == "json" then
      var filtered := FilterResults(results, config);
      if filtered.Err? then Err(filtered.error)
      else
        var summary := SummaryOf(filtered.value);
        if summary.Err? then Err(summary.error)
        else if config.outputFormat == "html" then
          Ok(Html(filtered.value, summary.value, |results|, |filtered.value|))
        else
          Ok(JsonDocument(summary.value, Records(filtered.value), |results|, |filtered.value|))
    else Err("Unsupported output format: " + config.outputFormat)
  }

  /** Any format but "html" and "json" is refused with its name in the
      message; the two supported formats give their kind of document, built
      from the filtered results, and never more kept results than given. */
  lemma GenerateFacts(results: seq<ACMGResult>, config: ReportConfig)
    ensures config.outputFormat != "html" && config.outputFormat != "json" ==>
      Generate(results, config) == Err("Unsupported output format: " + config.outputFormat)
    ensures var d := Generate(results, config);
      d.Ok? ==>
        FilterResults(results, config).Ok? &&
        var kept := FilterResults(results, config).value;
        d.value.totalVariants == |results| && d.value.filteredVariants == |kept| <= |results| &&
        Ok(d.value.summary) == SummaryOf(kept) &&
        (config.outputFormat == "html" <==> d.value.Html?) &&
        (d.value.Html? ==> d.value.results == kept) &&
        (d.value.JsonDocument? ==> d.value.variants == Records(kept))
    ensures (config.outputFormat == "html" || config.outputFormat == "json") ==>
      (Generate(results, config).Ok? <==>
        FilterResults(results, config).Ok? && SummaryOf(FilterResults(results, config).value).Ok?)
  {
    var f := FilterResults(results, config);
    if f.Ok? {
      FilterFacts(results, config);
      SubsequenceLength(f.value, results);
    }
  }

  /** `generate` as written: the JSON branch computes the summary first and
      then converts each kept result with the raising `_result_to_dict`;
      every other format behaves as in `Generate`. */
  function GenerateAsWritten(results: seq<ACMGResult>, config: ReportConfig): Result<Document>
  {
    if config.outputFormat != "json" then Generate(results, config)
    else
      var filtered := FilterResults(results, config);
      if filtered.Err? then Err(filtered.error)
      else
        var summary := SummaryOf(filtered.value);
        if summary.Err? then Err(summary.error)
        else
          match RecordsAsWritten(filtered.value)
          case Err(e) => Err(e)
          case Ok(records) => Ok(JsonDocument(summary.value, records, |results|, |filtered.value|))
  }

  /** As written, a JSON report succeeds exactly when filtering succeeds and
      keeps nothing, and then it is the corrected report; a failed filter
      fails it with the same error. HTML and unsupported formats are
      unaffected. */
  lemma GenerateAsWrittenFacts(results: seq<ACMGResult>, config: ReportConfig)
    ensures config.outputFormat != "json" ==> GenerateAsWritten(results, config) == Generate(results, config)
    ensures config.outputFormat == "json" ==>
      (GenerateAsWritten(results, config).Ok? <==> FilterResults(results, config) == Ok([]))
    ensures GenerateAsWritten(results, config).Ok? ==> GenerateAsWritten(results, config) == Generate(results, config)
    ensures config.outputFormat == "json" && FilterResults(results, config).Err? ==>
      GenerateAsWritten(results, config) == Err(FilterResults(results, config).error)
  {
    var f := FilterResults(results, config);
    if config.outputFormat == "json" && f.Ok? {
      JsonReportAsWrittenFails(f.value);
      if f.value == [] {
        assert RecordsAsWritten(f.value) == Ok([]);
        assert Records(f.value) == [];
      }
    }
  }

  lemma {:induction false} SubsequenceLength<T>(xs: seq<T>, ys: seq<T>)
    requires Subsequence(xs, ys)
    ensures |xs| <= |ys|
    decreases |ys|
  {
    if ys != [] {
      if Subsequence(xs, ys[..|ys| - 1]) {
        SubsequenceLength(xs, ys[..|ys| - 1]);
      } else {
        SubsequenceLength(xs[..|xs| - 1], ys[..|ys| - 1]);
      }
    }
  }
}
