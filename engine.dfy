/** The annotation engine: merges what the three annotation sources returned
    into a copy of a Variant, pulls in-silico scores out of the INFO map, and
    summarises annotation coverage over a list of Variants. The sources'
    answers are inputs: `Ok(d)` is the value a source's `annotate` returned
    (`JNull` for `None`), `Err` an exception that escaped it. */
module Engine {
  import opened Wrappers
  import opened Strings
  import opened Json
  import opened Models

  /** A source contributes only when it returned a non-empty dict: an empty
      dict or `None` is falsy, and any other truthy value makes the first
      `.get` raise, which the engine catches before assigning anything. */
  predicate Contributes(source: Result<Json>)
  {
    source.Ok? && source.value.JObj? && source.value.fields != map[]
  }

  /** The ClinVar step: significance and diseases are overwritten. */
  function MergeClinVar(v: Variant, source: Result<Json>): Variant
  {
    if Contributes(source) then
      var d := source.value.fields;
      v.(clinvarSignificance := Get(d, "clinical_significance"),
         clinvarDiseases := GetOr(d, "diseases", JArr([])))
    else v
  }

  /** The gnomAD step: the allele frequency is overwritten, even with `None`. */
  function MergeGnomad(v: Variant, source: Result<Json>): Variant
  {
    if Contributes(source) then v.(gnomadAf := Get(source.value.fields, "allele_frequency")) else v
  }

  /** `if not field: field = d.get(key)`. */
  function FillIfEmpty(field: Json, d: map<string, Json>, key: string): Json
  {
    if Truthy(field) then field else Get(d, key)
  }

  /** The Ensembl step: gene, transcript and HGVS are filled only where empty. */
  function FillEnsembl(v: Variant, source: Result<Json>): Variant
  {
    if Contributes(source) then
      var d := source.value.fields;
      v.(gene := FillIfEmpty(v.gene, d, "gene_name"),
         transcript := FillIfEmpty(v.transcript, d, "transcript_id"),
         hgvsC := FillIfEmpty(v.hgvsC, d, "hgvs_c"),
         hgvsP := FillIfEmpty(v.hgvsP, d, "hgvs_p"))
    else v
  }

  /** `float(info['CADD_RAW'])` when the key is present and converts;
      otherwise the current score is kept. */
  function CaddFrom(info: map<string, Json>, current: Option<real>, parseReal: string -> Option<real>): Option<real>
  {
    if "CADD_RAW" in info && ToFloat(info["CADD_RAW"], parseReal).Some? then ToFloat(info["CADD_RAW"], parseReal)
    else current
  }

  /** `float(str(info[key]).split(':')[1])` when the key is present, the text
      has a ':' and the field converts; otherwise the current score is kept. */
  function PredictionFrom(info: map<string, Json>, key: string, current: Option<real>,
                          parseReal: string -> Option<real>, str: Json -> string): Option<real>
  {
    if key in info && ':' in Text(info[key], str) then
      var t := Text(info[key], str);
      SplitHasSecond(t, ':');
      var parsed := parseReal(Split(t, ':')[1]);
      if parsed.Some? then parsed else current
    else current
  }

  /** The scores `_extract_in_silico_predictions` leaves on a variant. */
  function InSilico(v: Variant, parseReal: string -> Option<real>, str: Json -> string): Variant
  {
    v.(caddScore := CaddFrom(v.info, v.caddScore, parseReal),
       polyphenScore := PredictionFrom(v.info, "PolyPhen", v.polyphenScore, parseReal, str),
       siftScore := PredictionFrom(v.info, "SIFT", v.siftScore, parseReal, str))
  }

  /** `_extract_in_silico_predictions`, which updates the variant step by step. */
  method ExtractInSilico(v: Variant, parseReal: string -> Option<real>, str: Json -> string) returns (w: Variant)
    ensures w == InSilico(v, parseReal, str)
  {
    w := v;
    var info := w.info;
    if "CADD_RAW" in info {
      var score := ToFloat(info["CADD_RAW"], parseReal);
      if score.Some? {
        w := w.(caddScore := score);
      }
    }
    if "PolyPhen" in info {
      var text := Text(info["PolyPhen"], str);
      if ':' in text {
        SplitHasSecond(text, ':');
        var score := parseReal(Split(text, ':')[1]);
        if score.Some? {
          w := w.(polyphenScore := score);
        }
      }
    }
    if "SIFT" in info {
      var text := Text(info["SIFT"], str);
      if ':' in text {
        SplitHasSecond(text, ':');
        var score := parseReal(Split(text, ':')[1]);
        if score.Some? {
          w := w.(siftScore := score);
        }
      }
    }
  }

  /** The Variant `annotate` returns. */
  function Annotated(v: Variant, clinvar: Result<Json>, gnomad: Result<Json>, ensembl: Result<Json>,
                     parseReal: string -> Option<real>, str: Json -> string): Variant
  {
    InSilico(FillEnsembl(MergeGnomad(MergeClinVar(v, clinvar), gnomad), ensembl), parseReal, str)
  }

  /** `annotate`: the three sources in turn on a copy of the variant, each
      one's failure caught on its own, then the in-silico scores. */
  method Annotate(v: Variant, clinvar: Result<Json>, gnomad: Result<Json>, ensembl: Result<Json>,
                  parseReal: string -> Option<real>, str: Json -> string) returns (w: Variant)
    ensures w == Annotated(v, clinvar, gnomad, ensembl, parseReal, str)
  {
    // The copy: a Variant is a value, so `v` itself can never change.
    w := v;
    if Contributes(clinvar) {
      var d := clinvar.value.fields;
      w := w.(clinvarSignificance := Get(d, "clinical_significance"));
      w := w.(clinvarDiseases := GetOr(d, "diseases", JArr([])));
    }
    assert w == MergeClinVar(v, clinvar);
    if Contributes(gnomad) {
      w := w.(gnomadAf := Get(gnomad.value.fields, "allele_frequency"));
    }
    ghost var merged := MergeGnomad(MergeClinVar(v, clinvar), gnomad);
    assert w == merged;
    if Contributes(ensembl) {
      var d := ensembl.value.fields;
      if !Truthy(w.gene) {
        w := w.(gene := Get(d, "gene_name"));
      }
      if !Truthy(w.transcript) {
        w := w.(transcript := Get(d, "transcript_id"));
      }
      if !Truthy(w.hgvsC) {
        w := w.(hgvsC := Get(d, "hgvs_c"));
      }
      if !Truthy(w.hgvsP) {
        w := w.(hgvsP := Get(d, "hgvs_p"));
      }
    }
    assert w == FillEnsembl(merged, ensembl);
    w := ExtractInSilico(w, parseReal, str);
  }

  /** The fields annotation leaves alone: the VCF columns, the INFO map, the
      impact and the classification fields. */
  predicate SameRecord(v: Variant, w: Variant)
  {
    w.chrom == v.chrom && w.pos == v.pos && w.ref == v.ref && w.alt == v.alt &&
    w.variantType == v.variantType && w.id == v.id && w.qual == v.qual && w.filter == v.filter &&
    w.info == v.info && w.impact == v.impact &&
    w.acmgClassification == v.acmgClassification && w.acmgCriteria == v.acmgCriteria &&
    w.acmgScore == v.acmgScore && w.acmgReasoning == v.acmgReasoning
  }

  /** Annotation never touches the VCF columns, the INFO map, the impact or
      the classification fields. */
  lemma AnnotateKeepsRecord(v: Variant, clinvar: Result<Json>, gnomad: Result<Json>, ensembl: Result<Json>,
                            parseReal: string -> Option<real>, str: Json -> string)
    ensures SameRecord(v, Annotated(v, clinvar, gnomad, ensembl, parseReal, str))
  {
    var a := MergeClinVar(v, clinvar);
    assert SameRecord(v, a);
    var b := MergeGnomad(a, gnomad);
    assert SameRecord(v, b);
    var c := FillEnsembl(b, ensembl);
    assert SameRecord(v, c);
  }

  /** A contributing ClinVar result overwrites significance and diseases
      (diseases default to an empty list); otherwise both are kept. Neither
      depends on what gnomAD or Ensembl returned. */
  lemma AnnotateClinVar(v: Variant, clinvar: Result<Json>, gnomad: Result<Json>, ensembl: Result<Json>,
                        parseReal: string -> Option<real>, str: Json -> string)
    ensures var w := Annotated(v, clinvar, gnomad, ensembl, parseReal, str);
      if Contributes(clinvar) then
        w.clinvarSignificance == Get(clinvar.value.fields, "clinical_significance") &&
        w.clinvarDiseases == GetOr(clinvar.value.fields, "diseases", JArr([]))
      else
        w.clinvarSignificance == v.clinvarSignificance && w.clinvarDiseases == v.clinvarDiseases
  {
  }

  /** A contributing gnomAD result overwrites the allele frequency, with
      `None` when it has none; otherwise the frequency is kept. */
  lemma AnnotateGnomad(v: Variant, clinvar: Result<Json>, gnomad: Result<Json>, ensembl: Result<Json>,
                       parseReal: string -> Option<real>, str: Json -> string)
    ensures var w := Annotated(v, clinvar, gnomad, ensembl, parseReal, str);
      w.gnomadAf == if Contributes(gnomad) then Get(gnomad.value.fields, "allele_frequency") else v.gnomadAf
  {
  }

  /** Ensembl never replaces a value that is set, and fills an empty one
      from its result when it contributes. */
  lemma AnnotateEnsemblFills(v: Variant, clinvar: Result<Json>, gnomad: Result<Json>, ensembl: Result<Json>,
                             parseReal: string -> Option<real>, str: Json -> string)
    ensures var w := Annotated(v, clinvar, gnomad, ensembl, parseReal, str);
      (Truthy(v.gene) || !Contributes(ensembl) ==> w.gene == v.gene) &&
      (Truthy(v.transcript) || !Contributes(ensembl) ==> w.transcript == v.transcript) &&
      (Truthy(v.hgvsC) || !Contributes(ensembl) ==> w.hgvsC == v.hgvsC) &&
      (Truthy(v.hgvsP) || !Contributes(ensembl) ==> w.hgvsP == v.hgvsP)
    ensures var w := Annotated(v, clinvar, gnomad, ensembl, parseReal, str);
      Contributes(ensembl) ==>
        (!Truthy(v.gene) ==> w.gene == Get(ensembl.value.fields, "gene_name")) &&
        (!Truthy(v.transcript) ==> w.transcript == Get(ensembl.value.fields, "transcript_id")) &&
        (!Truthy(v.hgvsC) ==> w.hgvsC == Get(ensembl.value.fields, "hgvs_c")) &&
        (!Truthy(v.hgvsP) ==> w.hgvsP == Get(ensembl.value.fields, "hgvs_p"))
  {
    var u := MergeGnomad(MergeClinVar(v, clinvar), gnomad);
    assert u.gene == v.gene && u.transcript == v.transcript && u.hgvsC == v.hgvsC && u.hgvsP == v.hgvsP;
    var f := FillEnsembl(u, ensembl);
    var w := InSilico(f, parseReal, str);
    assert w.gene == f.gene && w.transcript == f.transcript && w.hgvsC == f.hgvsC && w.hgvsP == f.hgvsP;
  }

  /** An exception from one source has the same effect as that source
      finding nothing: the other sources and the INFO extraction still run. */
  lemma SourceFailureIsolated(v: Variant, error: string, clinvar: Result<Json>, gnomad: Result<Json>, ensembl: Result<Json>,
                              parseReal: string -> Option<real>, str: Json -> string)
    ensures Annotated(v, Err(error), gnomad, ensembl, parseReal, str) == Annotated(v, Ok(JNull), gnomad, ensembl, parseReal, str)
    ensures Annotated(v, clinvar, Err(error), ensembl, parseReal, str) == Annotated(v, clinvar, Ok(JNull), ensembl, parseReal, str)
    ensures Annotated(v, clinvar, gnomad, Err(error), parseReal, str) == Annotated(v, clinvar, gnomad, Ok(JNull), parseReal, str)
    ensures Annotated(v, Err(error), Err(error), Err(error), parseReal, str) == InSilico(v, parseReal, str)
  {
  }

  /** CADD_RAW sets the CADD score exactly when it converts to a float. */
  lemma InSilicoCadd(v: Variant, parseReal: string -> Option<real>, str: Json -> string)
    ensures var w := InSilico(v, parseReal, str);
      if "CADD_RAW" in v.info && ToFloat(v.info["CADD_RAW"], parseReal).Some? then
        w.caddScore == ToFloat(v.info["CADD_RAW"], parseReal)
      else
        w.caddScore == v.caddScore
  {
  }

  /** A PolyPhen or SIFT value `p:f` (possibly followed by `:more`) yields
      the score parsed from `f`, the field after the first ':'. */
  lemma InSilicoPrediction(v: Variant, key: string, p: string, f: string, rest: string,
                           parseReal: string -> Option<real>, str: Json -> string)
    requires key in v.info && v.info[key] == JStr(p + [':'] + f + rest)
    requires ':' !in p && ':' !in f && (rest == [] || rest[0] == ':')
    requires parseReal(f).Some?
    ensures PredictionFrom(v.info, key, v.polyphenScore, parseReal, str) == parseReal(f)
    ensures key == "PolyPhen" ==> InSilico(v, parseReal, str).polyphenScore == parseReal(f)
    ensures key == "SIFT" ==> InSilico(v, parseReal, str).siftScore == parseReal(f)
  {
    var t := p + [':'] + f + rest;
    assert t[|p|] == ':';
    SecondField(p, ':', f, rest);
  }

  /** A PolyPhen or SIFT text without ':' leaves that score unchanged. */
  lemma InSilicoNoColon(v: Variant, key: string, parseReal: string -> Option<real>, str: Json -> string)
    requires key in v.info && ':' !in Text(v.info[key], str)
    ensures PredictionFrom(v.info, key, v.siftScore, parseReal, str) == v.siftScore
    ensures key == "PolyPhen" ==> InSilico(v, parseReal, str).polyphenScore == v.polyphenScore
    ensures key == "SIFT" ==> InSilico(v, parseReal, str).siftScore == v.siftScore
  {
  }

  // ---------------------------------------------------------------------
  // Coverage summary

  /** What `get_annotation_summary` counts. */
  datatype Coverage = ClinVarCoverage | GnomadCoverage | EnsemblCoverage | CaddCoverage | PolyphenCoverage | SiftCoverage

  /** The keys of the statistics dict: the total, one count per coverage and
      the percentage derived from it. */
  datatype StatKey = Total | Counted(c: Coverage) | Percentage(c: Coverage)

  /** A count, or a percentage. */
  datatype Stat = Count(n: nat) | Share(p: real)

  /** The dict key a statistic is stored under. */
  function KeyName(k: StatKey): string
  {
    match k
    case Total => "total_variants"
    case Counted(c) => CoverageName(c)
    case Percentage(c) => CoverageName(c) + "_percentage"
  }

  function CoverageName(c: Coverage): string
  {
    match c
    case ClinVarCoverage => "clinvar_annotated"
    case GnomadCoverage => "gnomad_annotated"
    case EnsemblCoverage => "ensembl_annotated"
    case CaddCoverage => "cadd_annotated"
    case PolyphenCoverage => "polyphen_annotated"
    case SiftCoverage => "sift_annotated"
  }

  /** Whether a variant counts as annotated by a source. */
  predicate Covered(v: Variant, c: Coverage)
  {
    match c
    case ClinVarCoverage => Truthy(v.clinvarSignificance)
    case GnomadCoverage => v.gnomadAf != JNull
    case EnsemblCoverage => Truthy(v.gene)
    case CaddCoverage => v.caddScore.Some?
    case PolyphenCoverage => v.polyphenScore.Some?
    case SiftCoverage => v.siftScore.Some?
  }

  /** `sum(1 for v in variants if covered)`. */
  function CountCovered(vs: seq<Variant>, c: Coverage): (n: nat)
    ensures n <= |vs|
  {
    if vs == [] then 0
    else CountCovered(vs[..|vs| - 1], c) + (if Covered(vs[|vs| - 1], c) then 1 else 0)
  }

  /** The keys of the statistics dict in insertion order. */
  const CountKeys: seq<StatKey> :=
    [Total, Counted(ClinVarCoverage), Counted(GnomadCoverage), Counted(EnsemblCoverage),
     Counted(CaddCoverage), Counted(PolyphenCoverage), Counted(SiftCoverage)]

  /** The dict before percentages are added. */
  function Counts(vs: seq<Variant>): map<StatKey, Stat>
  {
    map[Total := Count(|vs|),
        Counted(ClinVarCoverage) := Count(CountCovered(vs, ClinVarCoverage)),
        Counted(GnomadCoverage) := Count(CountCovered(vs, GnomadCoverage)),
        Counted(EnsemblCoverage) := Count(CountCovered(vs, EnsemblCoverage)),
        Counted(CaddCoverage) := Count(CountCovered(vs, CaddCoverage)),
        Counted(PolyphenCoverage) := Count(CountCovered(vs, PolyphenCoverage)),
        Counted(SiftCoverage) := Count(CountCovered(vs, SiftCoverage))]
  }

  /** `(count / total) * 100`. */
  function Percent(count: nat, total: nat): real
    requires total > 0
  {
    (count as real / total as real) * 100.0
  }

  /** A share of a positive total lies between 0 and 100. */
  lemma PercentBounds(count: nat, total: nat)
    requires 0 < total && count <= total
    ensures 0.0 <= Percent(count, total) <= 100.0
    ensures count == total ==> Percent(count, total) == 100.0
  {
    var q := count as real / total as real;
    assert q * total as real == count as real;
    assert q <= 1.0 by {
      if q > 1.0 {
        assert q * total as real > total as real;
      }
    }
  }

  /** The Python loop at the end of `get_annotation_summary` as written: it
      adds keys to the dict it is iterating over, and Python's dict iterator
      raises on its next step once the dict's size has changed. */
  method SummaryAsWritten(vs: seq<Variant>) returns (r: Result<map<StatKey, Stat>>)
    ensures r.Err? <==> |vs| > 0
    ensures |vs| == 0 ==> r == Ok(Counts(vs))
  {
    var total := |vs|;
    var stats := Counts(vs);
    var size := |stats|;
    var i := 0;
    while true
      invariant i <= |CountKeys|
      invariant total == 0 ==> stats == Counts(vs)
      invariant total > 0 && i <= 1 ==> stats == Counts(vs)
      invariant total > 0 && i >= 2 ==> |stats| > size
      decreases |CountKeys| - i
    {
      // The iterator's next step checks the dict's size before anything else.
      if |stats| != size {
        return Err("RuntimeError: dictionary changed size during iteration");
      }
      if i == |CountKeys| {
        break;
      }
      var key := CountKeys[i];
      if key != Total && total > 0 {
        assert Percentage(key.c) !in stats;
        stats := stats[Percentage(key.c) := Share(Percent(stats[key].n, total))];
      }
      i := i + 1;
    }
    r := Ok(stats);
  }

  /** The percentages for the keys in `ks`, as the corrected loop adds them. */
  function Shares(vs: seq<Variant>, ks: seq<StatKey>): map<StatKey, Stat>
  {
    if ks == [] then map[]
    else
      var k := ks[|ks| - 1];
      var m := Shares(vs, ks[..|ks| - 1]);
      if k.Counted? && |vs| > 0 then m[Percentage(k.c) := Share(Percent(CountCovered(vs, k.c), |vs|))] else m
  }

  /** The statistics the corrected summary returns. */
  function SummaryOf(vs: seq<Variant>): map<StatKey, Stat>
  {
    Counts(vs) + Shares(vs, CountKeys)
  }

  /** `get_annotation_summary` as evidently intended: the same loop over a
      snapshot of the keys, so adding percentages cannot disturb it. */
  method AnnotationSummary(vs: seq<Variant>) returns (stats: map<StatKey, Stat>)
    ensures stats == SummaryOf(vs)
  {
    var total := |vs|;
    var counts := Counts(vs);
    stats := counts;
    var keys := CountKeys;
    assert forall k :: k in keys ==> k.Total? || k.Counted?;
    for i := 0 to |keys|
      invariant stats == counts + Shares(vs, keys[..i])
    {
      assert keys[..i + 1][..i] == keys[..i];
      var key := keys[i];
      if key != Total && total > 0 {
        CountedLookup(vs, key.c);
        UpdateAfterMerge(counts, Shares(vs, keys[..i]), Percentage(key.c), Share(Percent(CountCovered(vs, key.c), total)));
        stats := stats[Percentage(key.c) := Share(Percent(counts[key].n, total))];
      }
    }
    assert keys[..|keys|] == keys;
  }

  /** Each coverage count sits under its key. */
  lemma CountedLookup(vs: seq<Variant>, c: Coverage)
    ensures Counted(c) in Counts(vs) && Counts(vs)[Counted(c)] == Count(CountCovered(vs, c))
  {
  }

  lemma UpdateAfterMerge<K, V>(m: map<K, V>, s: map<K, V>, k: K, x: V)
    ensures m + s[k := x] == (m + s)[k := x]
  {
  }

  /** Where a percentage comes from among the keys `ks`. */
  lemma {:induction false} SharesAt(vs: seq<Variant>, ks: seq<StatKey>, k: StatKey)
    ensures k in Shares(vs, ks) ==> k.Percentage?
    ensures k.Percentage? ==> (k in Shares(vs, ks) <==> |vs| > 0 && Counted(k.c) in ks)
    ensures k in Shares(vs, ks) ==> Shares(vs, ks)[k] == Share(Percent(CountCovered(vs, k.c), |vs|))
    ensures |vs| == 0 ==> Shares(vs, ks) == map[]
  {
    if ks != [] {
      SharesAt(vs, ks[..|ks| - 1], k);
      assert ks == ks[..|ks| - 1] + [ks[|ks| - 1]];
    }
  }

  /** Every count lies between 0 and the total; percentage keys exist exactly
      when the total is positive, one per count, and each is the count's
      share of the total in percent, between 0 and 100. */
  lemma SummaryFacts(vs: seq<Variant>, c: Coverage)
    ensures var s := SummaryOf(vs);
      Total in s && s[Total] == Count(|vs|) &&
      Counted(c) in s && s[Counted(c)] == Count(CountCovered(vs, c)) && CountCovered(vs, c) <= |vs| &&
      (Percentage(c) in s <==> |vs| > 0)
    ensures |vs| > 0 ==>
      SummaryOf(vs)[Percentage(c)] == Share(Percent(CountCovered(vs, c), |vs|)) &&
      0.0 <= Percent(CountCovered(vs, c), |vs|) <= 100.0
    ensures |vs| == 0 ==> SummaryOf(vs) == Counts(vs)
  {
    var s := SummaryOf(vs);
    SharesAt(vs, CountKeys, Percentage(c));
    assert Counted(c) in CountKeys by {
      match c
      case ClinVarCoverage => assert CountKeys[1] == Counted(c);
      case GnomadCoverage => assert CountKeys[2] == Counted(c);
      case EnsemblCoverage => assert CountKeys[3] == Counted(c);
      case CaddCoverage => assert CountKeys[4] == Counted(c);
      case PolyphenCoverage => assert CountKeys[5] == Counted(c);
      case SiftCoverage => assert CountKeys[6] == Counted(c);
    }
    SharesAt(vs, CountKeys, Total);
    SharesAt(vs, CountKeys, Counted(c));
    if |vs| > 0 {
      PercentBounds(CountCovered(vs, c), |vs|);
    }
  }
}
