/** The records and enumerations every other module depends on: variant
    categories, the five classification tiers, the 28 criterion codes, the
    Variant record with its defaults, the classification result and the
    report configuration. */
module Models {
  import opened Wrappers
  import opened Json
  import opened Strings

  datatype VariantType = SNV | INDEL | CNV | SV

  /** The four variant categories, in declaration order. */
  const AllVariantTypes: seq<VariantType> := [SNV, INDEL, CNV, SV]

  /** The enumeration value of a variant category. */
  function TypeName(t: VariantType): string
  {
    match t
    case SNV => "SNV"
    case INDEL => "INDEL"
    case CNV => "CNV"
    case SV => "SV"
  }

  lemma VariantTypesComplete()
    ensures |AllVariantTypes| == 4
    ensures forall t: VariantType :: t in AllVariantTypes
  {
    forall t: VariantType ensures t in AllVariantTypes {
      match t
      case SNV => assert AllVariantTypes[0] == t;
      case INDEL => assert AllVariantTypes[1] == t;
      case CNV => assert AllVariantTypes[2] == t;
      case SV => assert AllVariantTypes[3] == t;
    }
  }

  datatype Classification = Pathogenic | LikelyPathogenic | UncertainSignificance | LikelyBenign | Benign

  /** The enumeration value, the text reports show. */
  function Label(c: Classification): string
  {
    match c
    case Pathogenic => "Pathogenic"
    case LikelyPathogenic => "Likely Pathogenic"
    case UncertainSignificance => "Uncertain Significance"
    case LikelyBenign => "Likely Benign"
    case Benign => "Benign"
  }

  const AllClassifications: seq<Classification> :=
    [Pathogenic, LikelyPathogenic, UncertainSignificance, LikelyBenign, Benign]

  /** There are exactly five tiers, each with its own label. */
  lemma ClassificationsComplete()
    ensures |AllClassifications| == 5
    ensures forall c: Classification :: c in AllClassifications
    ensures forall c, d: Classification :: Label(c) == Label(d) ==> c == d
    ensures forall c: Classification ::
      (Label(c) in {"Pathogenic", "Likely Pathogenic", "Uncertain Significance", "Likely Benign", "Benign"})
  {
    forall c: Classification ensures c in AllClassifications {
      match c
      case Pathogenic => assert AllClassifications[0] == c;
      case LikelyPathogenic => assert AllClassifications[1] == c;
      case UncertainSignificance => assert AllClassifications[2] == c;
      case LikelyBenign => assert AllClassifications[3] == c;
      case Benign => assert AllClassifications[4] == c;
    }
    forall c, d: Classification | Label(c) == Label(d) ensures c == d {
      assert Label(c)[0] == Label(d)[0] && |Label(c)| == |Label(d)|;
    }
  }

  datatype Criterion =
    | PVS1
    | PS1 | PS2 | PS3 | PS4
    | PM1 | PM2 | PM3 | PM4 | PM5 | PM6
    | PP1 | PP2 | PP3 | PP4 | PP5
    | BA1
    | BS1 | BS2 | BS3 | BS4
    | BP1 | BP2 | BP3 | BP4 | BP5 | BP6 | BP7

  /** The enumeration value of a criterion. */
  function Code(c: Criterion): string
  {
    match c
    case PVS1 => "PVS1"
    case PS1 => "PS1" case PS2 => "PS2" case PS3 => "PS3" case PS4 => "PS4"
    case PM1 => "PM1" case PM2 => "PM2" case PM3 => "PM3"
    case PM4 => "PM4" case PM5 => "PM5" case PM6 => "PM6"
    case PP1 => "PP1" case PP2 => "PP2" case PP3 => "PP3" case PP4 => "PP4" case PP5 => "PP5"
    case BA1 => "BA1"
    case BS1 => "BS1" case BS2 => "BS2" case BS3 => "BS3" case BS4 => "BS4"
    case BP1 => "BP1" case BP2 => "BP2" case BP3 => "BP3" case BP4 => "BP4"
    case BP5 => "BP5" case BP6 => "BP6" case BP7 => "BP7"
  }

  const PathogenicCriteria: seq<Criterion> :=
    [PVS1, PS1, PS2, PS3, PS4, PM1, PM2, PM3, PM4, PM5, PM6, PP1, PP2, PP3, PP4, PP5]

  const BenignCriteria: seq<Criterion> :=
    [BA1, BS1, BS2, BS3, BS4, BP1, BP2, BP3, BP4, BP5, BP6, BP7]

  /** Declaration order, which is also the order the classifier evaluates them in. */
  const AllCriteria: seq<Criterion> := PathogenicCriteria + BenignCriteria

  /** The position of a criterion in declaration order. */
  function Position(c: Criterion): (i: nat)
    ensures i < 28
  {
    match c
    case PVS1 => 0
    case PS1 => 1 case PS2 => 2 case PS3 => 3 case PS4 => 4
    case PM1 => 5 case PM2 => 6 case PM3 => 7 case PM4 => 8 case PM5 => 9 case PM6 => 10
    case PP1 => 11 case PP2 => 12 case PP3 => 13 case PP4 => 14 case PP5 => 15
    case BA1 => 16
    case BS1 => 17 case BS2 => 18 case BS3 => 19 case BS4 => 20
    case BP1 => 21 case BP2 => 22 case BP3 => 23 case BP4 => 24 case BP5 => 25 case BP6 => 26 case BP7 => 27
  }

  lemma PositionOfEach(i: nat)
    requires i < 28
    ensures |AllCriteria| == 28
    ensures Position(AllCriteria[i]) == i
  {
    assert AllCriteria == [PVS1, PS1, PS2, PS3, PS4, PM1, PM2, PM3, PM4, PM5, PM6, PP1, PP2, PP3, PP4, PP5,
                           BA1, BS1, BS2, BS3, BS4, BP1, BP2, BP3, BP4, BP5, BP6, BP7];
  }

  lemma AtPosition(c: Criterion)
    ensures |AllCriteria| == 28
    ensures AllCriteria[Position(c)] == c
  {
    assert AllCriteria == [PVS1, PS1, PS2, PS3, PS4, PM1, PM2, PM3, PM4, PM5, PM6, PP1, PP2, PP3, PP4, PP5,
                           BA1, BS1, BS2, BS3, BS4, BP1, BP2, BP3, BP4, BP5, BP6, BP7];
  }

  /** Every criterion is listed exactly once among the 28. */
  lemma CriteriaCatalogue()
    ensures |PathogenicCriteria| == 16 && |BenignCriteria| == 12 && |AllCriteria| == 28
    ensures forall c: Criterion :: c in AllCriteria
    ensures forall i, j :: 0 <= i < j < |AllCriteria| ==> AllCriteria[i] != AllCriteria[j]
  {
    forall c: Criterion ensures c in AllCriteria {
      AtPosition(c);
    }
    forall i, j | 0 <= i < j < |AllCriteria| ensures AllCriteria[i] != AllCriteria[j] {
      PositionOfEach(i);
      PositionOfEach(j);
    }
  }

  /** The 16 pathogenic criteria are exactly those whose code starts with
      'P', the 12 benign ones those whose code starts with 'B'. */
  lemma CriteriaGroups(c: Criterion)
    ensures c in PathogenicCriteria <==> Code(c)[0] == 'P'
    ensures c in BenignCriteria <==> Code(c)[0] == 'B'
  {
    AtPosition(c);
    assert PathogenicCriteria == AllCriteria[..16] && BenignCriteria == AllCriteria[16..];
    if Position(c) < 16 {
      assert AllCriteria[..16][Position(c)] == c;
      assert c !in BenignCriteria by {
        if c in BenignCriteria {
          var k :| 0 <= k < 12 && BenignCriteria[k] == c;
          PositionOfEach(16 + k);
        }
      }
    } else {
      assert AllCriteria[16..][Position(c) - 16] == c;
      assert c !in PathogenicCriteria by {
        if c in PathogenicCriteria {
          var k :| 0 <= k < 16 && PathogenicCriteria[k] == c;
          PositionOfEach(k);
        }
      }
    }
  }

  /** A variant record: identity, VCF columns, INFO map, annotations and
      classification. Fields that the pipeline assigns after validation can
      hold any dynamic value, so they are `Json` (`JNull` for None). */
  datatype Variant = Variant(
    chrom: string,
    pos: int,
    ref: string,
    alt: string,
    variantType: VariantType,
    id: Option<string>,
    qual: Option<real>,
    filter: Option<string>,
    info: map<string, Json>,
    gene: Json,
    transcript: Json,
    hgvsC: Json,
    hgvsP: Json,
    impact: Json,
    clinvarSignificance: Json,
    clinvarDiseases: Json,
    gnomadAf: Json,
    caddScore: Option<real>,
    polyphenScore: Option<real>,
    siftScore: Option<real>,
    acmgClassification: Option<Classification>,
    acmgCriteria: seq<Criterion>,
    acmgScore: Option<int>,
    acmgReasoning: Option<string>)

  /** A Variant built from its five required fields: an empty INFO map,
      empty disease and criteria lists, every other field absent. */
  function NewVariant(chrom: string, pos: int, ref: string, alt: string, t: VariantType): (v: Variant)
    ensures v.chrom == chrom && v.pos == pos && v.ref == ref && v.alt == alt && v.variantType == t
    ensures v.info == map[] && v.clinvarDiseases == JArr([]) && v.acmgCriteria == []
    ensures v.id == None && v.qual == None && v.filter == None
    ensures v.gene == JNull && v.transcript == JNull && v.hgvsC == JNull && v.hgvsP == JNull && v.impact == JNull
    ensures v.clinvarSignificance == JNull && v.gnomadAf == JNull
    ensures v.caddScore == None && v.polyphenScore == None && v.siftScore == None
    ensures v.acmgClassification == None && v.acmgScore == None && v.acmgReasoning == None
  {
    Variant(chrom, pos, ref, alt, t, None, None, None, map[],
            JNull, JNull, JNull, JNull, JNull, JNull, JArr([]), JNull,
            None, None, None, None, [], None, None)
  }

  /** The identifier both annotators build for a variant:
      `{chrom}<sep>{pos}<sep>{ref}<sep>{alt}` with one leading "chr"
      removed from the chromosome. */
  function VariantKey(v: Variant, sep: char): string
  {
    StripChr(v.chrom) + [sep] + IntToString(v.pos) + [sep] + v.ref + [sep] + v.alt
  }

  /** The identifier splits back into its four fields when none of them
      holds the separator. */
  lemma VariantKeyFields(v: Variant, sep: char)
    requires sep !in StripChr(v.chrom) && v.pos >= 0 && sep !in v.ref && sep !in v.alt && !IsDigit(sep)
    ensures Split(VariantKey(v, sep), sep) == [StripChr(v.chrom), IntToString(v.pos), v.ref, v.alt]
  {
    assert sep !in IntToString(v.pos);
    SplitFour(StripChr(v.chrom), IntToString(v.pos), v.ref, v.alt, sep);
  }

  /** For chr17 at position p, A>G, the identifier is "17<sep>p<sep>A<sep>G"
      and holds no 'c', so no "chr". */
  lemma VariantKeyExample(v: Variant, sep: char)
    requires v.chrom == "chr17" && v.pos >= 0 && v.ref == "A" && v.alt == "G" && sep != 'c'
    ensures VariantKey(v, sep) == "17" + [sep] + IntToString(v.pos) + [sep] + "A" + [sep] + "G"
    ensures 'c' !in VariantKey(v, sep) && !Contains(VariantKey(v, sep), "chr")
  {
    assert StartsWith(v.chrom, "chr");
    NotContainsForMissingChar(VariantKey(v, sep), "chr", 0);
  }

  /** The outcome of classifying one variant. */
  datatype ACMGResult = ACMGResult(
    variant: Variant,
    classification: Classification,
    criteria: seq<Criterion>,
    score: int,
    reasoning: string,
    confidence: real)

  /** Report generation options. */
  datatype ReportConfig = ReportConfig(
    outputFormat: string,
    includeEvidence: bool,
    includeRecommendations: bool,
    phenotypeFilter: Option<string>,
    minQuality: Option<real>,
    maxGnomadAf: Option<real>)

  /** The configuration a report gets when no option is given. */
  function DefaultReportConfig(): (c: ReportConfig)
    ensures c.outputFormat == "html" && c.maxGnomadAf == Some(0.01)
    ensures c.minQuality == None && c.phenotypeFilter == None
    ensures c.includeEvidence && c.includeRecommendations
  {
    ReportConfig("html", true, true, None, None, Some(0.01))
  }
}
