/** The ACMG classifier: 28 criterion evaluators run in declaration order
    (four real rules, PVS1, PM2, PP3 and BA1, and 24 placeholders that are
    never met), a signed integer score, five tiers, a confidence value and a
    reasoning text. An evaluator that raises makes `Classify` fall back to
    Uncertain Significance. */
module Scoring {
  import opened Wrappers
  import opened Strings
  import opened Json
  import opened Models

  datatype Strength = VeryStrong | Strong | Moderate | Supporting | Standalone

  /** The classifier's strength table. */
  function StrengthOf(c: Criterion): Strength
  {
    match c
    case PVS1 => VeryStrong
    case PS1 | PS2 | PS3 | PS4 => Strong
    case PM1 | PM2 | PM3 | PM4 | PM5 | PM6 => Moderate
    case PP1 | PP2 | PP3 | PP4 | PP5 => Supporting
    case BA1 => Standalone
    case BS1 | BS2 | BS3 | BS4 => Strong
    case BP1 | BP2 | BP3 | BP4 | BP5 | BP6 | BP7 => Supporting
  }

  /** The explanation an evaluator gives, one constructor per message. */
  datatype Reason =
    | NullVariantInLofGene
    | NoLofEvidence
    | NoFrequencyData
    | RareVariant(af: real)
    | CommonVariant(af: real)
    | Deleterious(deleterious: nat, total: nat)
    | NoComputationalEvidence
    | AboveStandalone(af: real)
    | NotCommon
    | NotEvaluated(c: Criterion)

  /** The message text of an explanation. */
  function Explain(r: Reason): string
  {
    match r
    case NullVariantInLofGene => "PVS1: Met - null variant in gene with known LOF mechanism"
    case NoLofEvidence => "PVS1: Not met - insufficient evidence for LOF mechanism"
    case NoFrequencyData => "PM2: Not evaluated - no population frequency data"
    case RareVariant(af) => "PM2: Met - rare variant (AF: " + Fixed6(af) + ")"
    case CommonVariant(af) => "PM2: Not met - common variant (AF: " + Fixed6(af) + ")"
    case Deleterious(d, t) => "PP3: Met - " + NatToString(d) + "/" + NatToString(t) + " tools predict deleterious"
    case NoComputationalEvidence => "PP3: Not met - insufficient computational evidence"
    case AboveStandalone(af) => "BA1: Met - common variant (AF: " + Fixed6(af) + ")"
    case NotCommon => "BA1: Not met - variant not common in population"
    case NotEvaluated(c) => Code(c) + ": Not evaluated"
  }

  /** The outcome of one evaluator (the evidence dictionary is not modelled). */
  datatype CriterionResult = CriterionResult(criterion: Criterion, met: bool, strength: Strength, reason: Reason)

  const LofTerms: seq<string> :=
    ["HIGH", "stop_gained", "frameshift_variant", "splice_acceptor_variant", "splice_donor_variant"]

  const LofGenes: seq<string> := ["BRCA1", "BRCA2", "TP53", "PTEN", "APC", "RB1", "VHL"]

  /** Python's `any(term in s for term in terms)`. */
  predicate AnyTermIn(terms: seq<string>, s: string)
  {
    exists k :: 0 <= k < |terms| && Contains(s, terms[k])
  }

  /** Upper-casing leaves no lower-case letter, so of the five terms only
      "HIGH" can ever be found. */
  lemma OnlyHighMatches(s: string)
    ensures AnyTermIn(LofTerms, AsciiUpper(s)) <==> Contains(AsciiUpper(s), "HIGH")
  {
    var u := AsciiUpper(s);
    forall k | 1 <= k < |LofTerms| ensures !Contains(u, LofTerms[k]) {
      var t := LofTerms[k];
      assert IsLower(t[0]);
      NotContainsForMissingChar(u, t, 0);
    }
    assert LofTerms[0] == "HIGH";
  }

  /** Whether the variant is predicted loss-of-function. A non-empty impact
      decides alone; otherwise a protein change mentioning "Ter" does.
      `Err` is the exception raised on an impact that is not text or a
      protein change `in` cannot search. */
  function IsLof(v: Variant): (r: Result<bool>)
    ensures Truthy(v.impact) ==> (r.Ok? <==> v.impact.JStr?)
    ensures Truthy(v.impact) && v.impact.JStr? ==> r == Ok(Contains(AsciiUpper(v.impact.s), "HIGH"))
    ensures !Truthy(v.impact) && v.hgvsP.JStr? ==> r == Ok(Contains(v.hgvsP.s, "Ter"))
    ensures !Truthy(v.impact) && v.hgvsP.JNull? ==> r == Ok(false)
  {
    if Truthy(v.impact) then
      if v.impact.JStr? then
        OnlyHighMatches(v.impact.s);
        Ok(AnyTermIn(LofTerms, AsciiUpper(v.impact.s)))
      else Err("AttributeError: impact has no attribute 'upper'")
    else if Truthy(v.hgvsP) then In("Ter", v.hgvsP)
    else Ok(false)
  }

  /** Whether the gene is one of the seven tumour suppressors with a known
      loss-of-function mechanism. */
  predicate HasLofMechanism(v: Variant)
    ensures HasLofMechanism(v) <==> exists k :: 0 <= k < |LofGenes| && v.gene == JStr(LofGenes[k])
  {
    Truthy(v.gene) && v.gene.JStr? && v.gene.s in LofGenes
  }

  /** PVS1: a null variant in a gene with a known loss-of-function mechanism. */
  function EvaluatePVS1(v: Variant): (r: Result<CriterionResult>)
    ensures r.Ok? <==> IsLof(v).Ok?
    ensures r.Ok? ==> r.value.criterion == PVS1 && r.value.strength == VeryStrong
    ensures r.Ok? ==> (r.value.met <==> IsLof(v).value && HasLofMechanism(v))
  {
    var lof :- IsLof(v);
    if lof && HasLofMechanism(v) then
      Ok(CriterionResult(PVS1, true, StrengthOf(PVS1), NullVariantInLofGene))
    else
      Ok(CriterionResult(PVS1, false, StrengthOf(PVS1), NoLofEvidence))
  }

  /** An allele frequency that is present but cannot be compared with a float. */
  predicate AfIncomparable(v: Variant)
  {
    !v.gnomadAf.JNull? && AsNumber(v.gnomadAf).None?
  }

  /** PM2: absent (below 0.01%) from population databases. */
  function EvaluatePM2(v: Variant): (r: Result<CriterionResult>)
    ensures r.Err? <==> AfIncomparable(v)
    ensures r.Ok? ==> r.value.criterion == PM2 && r.value.strength == Moderate
    ensures r.Ok? ==> (r.value.met <==> AsNumber(v.gnomadAf).Some? && AsNumber(v.gnomadAf).value < 0.0001)
  {
    if v.gnomadAf.JNull? then
      Ok(CriterionResult(PM2, false, StrengthOf(PM2), NoFrequencyData))
    else
      match AsNumber(v.gnomadAf)
      case None => Err("TypeError: '<' not supported for the allele frequency")
      case Some(af) =>
        if af < 0.0001 then
          Ok(CriterionResult(PM2, true, StrengthOf(PM2), RareVariant(af)))
        else
          Ok(CriterionResult(PM2, false, StrengthOf(PM2), CommonVariant(af)))
  }

  /** 1 when the predictor is present. */
  function Present(score: Option<real>): nat
  {
    if score.Some? then 1 else 0
  }

  /** How many of the three predictors are present. */
  function PresentCount(v: Variant): (n: nat)
    ensures n <= 3
  {
    Present(v.caddScore) + Present(v.polyphenScore) + Present(v.siftScore)
  }

  /** How many present predictors call the variant deleterious: CADD above
      20, PolyPhen above 0.908, SIFT below 0.05. */
  function DeleteriousCount(v: Variant): (n: nat)
    ensures n <= PresentCount(v)
  {
    (if v.caddScore.Some? && v.caddScore.value > 20.0 then 1 else 0)
    + (if v.polyphenScore.Some? && v.polyphenScore.value > 0.908 then 1 else 0)
    + (if v.siftScore.Some? && v.siftScore.value < 0.05 then 1 else 0)
  }

  /** PP3: at least two computational predictions of a deleterious effect. */
  function EvaluatePP3(v: Variant): (r: CriterionResult)
    ensures r.criterion == PP3 && r.strength == Supporting
    ensures r.met <==> DeleteriousCount(v) >= 2
  {
    var deleterious := DeleteriousCount(v);
    var total := PresentCount(v);
    if deleterious >= 2 && total >= 2 then
      CriterionResult(PP3, true, StrengthOf(PP3), Deleterious(deleterious, total))
    else
      CriterionResult(PP3, false, StrengthOf(PP3), NoComputationalEvidence)
  }

  /** BA1: allele frequency above 5%. */
  function EvaluateBA1(v: Variant): (r: Result<CriterionResult>)
    ensures r.Err? <==> AfIncomparable(v)
    ensures r.Ok? ==> r.value.criterion == BA1 && r.value.strength == Standalone
    ensures r.Ok? ==> (r.value.met <==> AsNumber(v.gnomadAf).Some? && AsNumber(v.gnomadAf).value > 0.05)
  {
    if v.gnomadAf.JNull? then
      Ok(CriterionResult(BA1, false, StrengthOf(BA1), NotCommon))
    else
      match AsNumber(v.gnomadAf)
      case None => Err("TypeError: '>' not supported for the allele frequency")
      case Some(af) =>
        if af > 0.05 then
          Ok(CriterionResult(BA1, true, StrengthOf(BA1), AboveStandalone(af)))
        else
          Ok(CriterionResult(BA1, false, StrengthOf(BA1), NotCommon))
  }

  /** A placeholder evaluator: never met. */
  function Stub(c: Criterion): CriterionResult
  {
    CriterionResult(c, false, StrengthOf(c), NotEvaluated(c))
  }

  /** The evaluator of one criterion. Only the four real rules can be met,
      and only PVS1, PM2 and BA1 can raise. */
  function Evaluate(c: Criterion, v: Variant): (r: Result<CriterionResult>)
    ensures r.Ok? ==> r.value.criterion == c && r.value.strength == StrengthOf(c)
    ensures r.Ok? && r.value.met ==> c in {PVS1, PM2, PP3, BA1}
    ensures c !in {PVS1, PM2, BA1} ==> r.Ok?
  {
    match c
    case PVS1 => EvaluatePVS1(v)
    case PM2 => EvaluatePM2(v)
    case PP3 => Ok(EvaluatePP3(v))
    case BA1 => EvaluateBA1(v)
    case _ => Ok(Stub(c))
  }

  /** Runs the evaluators of `cs` in order, stopping at the first that raises. */
  function EvaluateAll(cs: seq<Criterion>, v: Variant): (r: Result<seq<CriterionResult>>)
    ensures r.Ok? <==> forall i :: 0 <= i < |cs| ==> Evaluate(cs[i], v).Ok?
    ensures r.Ok? ==> |r.value| == |cs|
    ensures r.Ok? ==> forall i :: 0 <= i < |cs| ==> r.value[i] == Evaluate(cs[i], v).value
  {
    if |cs| == 0 then Ok([])
    else
      var init := EvaluateAll(cs[..|cs| - 1], v);
      var last := Evaluate(cs[|cs| - 1], v);
      if init.Err? then init
      else if last.Err? then Err(last.error)
      else Ok(init.value + [last.value])
  }

  /** Once a prefix raises, the whole run raises the same error. */
  lemma {:induction false} EvaluateAllPrefixErr(cs: seq<Criterion>, i: nat, v: Variant)
    requires i <= |cs| && EvaluateAll(cs[..i], v).Err?
    ensures EvaluateAll(cs, v) == EvaluateAll(cs[..i], v)
    decreases |cs| - i
  {
    if i < |cs| {
      var next := cs[..i + 1];
      assert next[..i] == cs[..i];
      EvaluateAllPrefixErr(cs, i + 1, v);
    } else {
      assert cs[..i] == cs;
    }
  }

  /** All 28 evaluations in declaration order. */
  function Evaluations(v: Variant): Result<seq<CriterionResult>>
  {
    EvaluateAll(AllCriteria, v)
  }

  /** `_evaluate_criteria`: appends one result per criterion, in declaration order. */
  method EvaluateCriteria(v: Variant) returns (r: Result<seq<CriterionResult>>)
    ensures r == Evaluations(v)
  {
    r := EvaluateEach(AllCriteria, v);
  }

  /** The loop of `_evaluate_criteria` over the criteria `cs`. */
  method EvaluateEach(cs: seq<Criterion>, v: Variant) returns (r: Result<seq<CriterionResult>>)
    ensures r == EvaluateAll(cs, v)
  {
    var results: seq<CriterionResult> := [];
    for i := 0 to |cs|
      invariant EvaluateAll(cs[..i], v) == Ok(results)
    {
      var outcome := Evaluate(cs[i], v);
      assert cs[..i + 1][..i] == cs[..i];
      if outcome.Err? {
        EvaluateAllPrefixErr(cs, i + 1, v);
        return Err(outcome.error);
      }
      results := results + [outcome.value];
    }
    assert cs[..|cs|] == cs;
    r := Ok(results);
  }

  /** The evaluation succeeds exactly when PVS1, PM2 and BA1 do. */
  lemma EvaluationsSucceed(v: Variant)
    ensures Evaluations(v).Ok? <==> IsLof(v).Ok? && !AfIncomparable(v)
  {
    CriteriaCatalogue();
    AtPosition(PVS1);
    AtPosition(PM2);
    AtPosition(BA1);
    if IsLof(v).Ok? && !AfIncomparable(v) {
      forall i | 0 <= i < |AllCriteria| ensures Evaluate(AllCriteria[i], v).Ok? {
      }
    } else {
      assert !Evaluate(PVS1, v).Ok? || !Evaluate(PM2, v).Ok?;
    }
  }

  /** Only positions 0, 6, 13 and 16 (PVS1, PM2, PP3, BA1) can hold a met result. */
  lemma MetOnlyAtRules(v: Variant, i: nat)
    requires Evaluations(v).Ok? && i < 28
    ensures |Evaluations(v).value| == 28
    ensures Evaluations(v).value[i].met ==> i == 0 || i == 6 || i == 13 || i == 16
  {
    CriteriaCatalogue();
    PositionOfEach(i);
    var c := AllCriteria[i];
    assert Evaluations(v).value[i] == Evaluate(c, v).value;
  }

  /** The four rule results sit at their declaration positions. */
  lemma RulePositions(v: Variant)
    requires Evaluations(v).Ok?
    ensures |Evaluations(v).value| == 28
    ensures EvaluatePVS1(v).Ok? && EvaluatePM2(v).Ok? && EvaluateBA1(v).Ok?
    ensures Evaluations(v).value[0] == EvaluatePVS1(v).value
    ensures Evaluations(v).value[6] == EvaluatePM2(v).value
    ensures Evaluations(v).value[13] == EvaluatePP3(v)
    ensures Evaluations(v).value[16] == EvaluateBA1(v).value
  {
    CriteriaCatalogue();
    EvaluationsSucceed(v);
    AtPosition(PVS1);
    AtPosition(PM2);
    AtPosition(PP3);
    AtPosition(BA1);
  }

  /** The signed weight of a met criterion. */
  function Weight(c: Criterion): int
  {
    match c
    case PVS1 => 8
    case PS1 | PS2 | PS3 | PS4 => 4
    case PM1 | PM2 | PM3 | PM4 | PM5 | PM6 => 2
    case PP1 | PP2 | PP3 | PP4 | PP5 => 1
    case BA1 => -8
    case BS1 | BS2 | BS3 | BS4 => -4
    case BP1 | BP2 | BP3 | BP4 | BP5 | BP6 | BP7 => -1
  }

  /** The size of a weight follows the strength table; the sign is positive
      exactly for the pathogenic criteria. */
  lemma WeightFollowsStrength(c: Criterion)
    ensures Weight(c) > 0 <==> c in PathogenicCriteria
    ensures StrengthOf(c) == VeryStrong || StrengthOf(c) == Standalone <==> Weight(c) == 8 || Weight(c) == -8
    ensures StrengthOf(c) == Strong <==> Weight(c) == 4 || Weight(c) == -4
    ensures StrengthOf(c) == Moderate <==> Weight(c) == 2
    ensures StrengthOf(c) == Supporting <==> Weight(c) == 1 || Weight(c) == -1
  {
    CriteriaGroups(c);
  }

  /** What one result adds to the score. */
  function Contribution(cr: CriterionResult): int
  {
    if cr.met then Weight(cr.criterion) else 0
  }

  /** The score: the sum of the weights of the met criteria. */
  function ScoreOf(rs: seq<CriterionResult>): int
  {
    if |rs| == 0 then 0 else ScoreOf(rs[..|rs| - 1]) + Contribution(rs[|rs| - 1])
  }

  /** `_calculate_score`. */
  method CalculateScore(rs: seq<CriterionResult>) returns (score: int)
    ensures score == ScoreOf(rs)
  {
    score := 0;
    for i := 0 to |rs|
      invariant score == ScoreOf(rs[..i])
    {
      assert rs[..i + 1][..i] == rs[..i];
      if !rs[i].met {
        continue;
      }
      score := score + Weight(rs[i].criterion);
    }
    assert rs[..|rs|] == rs;
  }

  lemma {:induction false} ScoreOfAppend(a: seq<CriterionResult>, b: seq<CriterionResult>)
    ensures ScoreOf(a + b) == ScoreOf(a) + ScoreOf(b)
    decreases |b|
  {
    if |b| > 0 {
      assert (a + b)[..|a + b| - 1] == a + b[..|b| - 1];
      ScoreOfAppend(a, b[..|b| - 1]);
    } else {
      assert a + b == a;
    }
  }

  lemma {:induction false} ScoreOfUnmet(rs: seq<CriterionResult>)
    requires forall i :: 0 <= i < |rs| ==> !rs[i].met
    ensures ScoreOf(rs) == 0
  {
    if |rs| > 0 {
      ScoreOfUnmet(rs[..|rs| - 1]);
    }
  }

  /** Splitting the score of a slice around one position. */
  lemma ScoreAround(rs: seq<CriterionResult>, lo: nat, k: nat, hi: nat)
    requires lo <= k < hi <= |rs|
    ensures ScoreOf(rs[lo..hi]) == ScoreOf(rs[lo..k]) + Contribution(rs[k]) + ScoreOf(rs[k + 1..hi])
  {
    var left := rs[lo..k];
    var right := rs[k + 1..hi];
    assert rs[lo..hi] == (left + [rs[k]]) + right;
    ScoreOfAppend(left + [rs[k]], right);
    ScoreOfAppend(left, [rs[k]]);
    assert [rs[k]][..0] == [];
  }

  /** The met results, in order. */
  function MetResults(rs: seq<CriterionResult>): seq<CriterionResult>
  {
    if |rs| == 0 then []
    else MetResults(rs[..|rs| - 1]) + (if rs[|rs| - 1].met then [rs[|rs| - 1]] else [])
  }

  lemma {:induction false} MetResultsAppend(a: seq<CriterionResult>, b: seq<CriterionResult>)
    ensures MetResults(a + b) == MetResults(a) + MetResults(b)
    decreases |b|
  {
    if |b| > 0 {
      assert (a + b)[..|a + b| - 1] == a + b[..|b| - 1];
      MetResultsAppend(a, b[..|b| - 1]);
    } else {
      assert a + b == a;
    }
  }

  lemma {:induction false} MetResultsUnmet(rs: seq<CriterionResult>)
    requires forall i :: 0 <= i < |rs| ==> !rs[i].met
    ensures MetResults(rs) == []
  {
    if |rs| > 0 {
      MetResultsUnmet(rs[..|rs| - 1]);
    }
  }

  /** A result on its own, if met. */
  function IfMet(cr: CriterionResult): seq<CriterionResult>
  {
    if cr.met then [cr] else []
  }

  /** Splitting the met results of a slice around one position. */
  lemma MetAround(rs: seq<CriterionResult>, lo: nat, k: nat, hi: nat)
    requires lo <= k < hi <= |rs|
    ensures MetResults(rs[lo..hi]) == MetResults(rs[lo..k]) + IfMet(rs[k]) + MetResults(rs[k + 1..hi])
  {
    var left := rs[lo..k];
    var right := rs[k + 1..hi];
    assert rs[lo..hi] == (left + [rs[k]]) + right;
    MetResultsAppend(left + [rs[k]], right);
    MetResultsAppend(left, [rs[k]]);
    assert [rs[k]][..0] == [];
  }

  /** A slice with nothing met adds nothing. */
  lemma UnmetSlice(rs: seq<CriterionResult>, lo: nat, hi: nat)
    requires lo <= hi <= |rs|
    requires forall i :: lo <= i < hi ==> !rs[i].met
    ensures ScoreOf(rs[lo..hi]) == 0 && MetResults(rs[lo..hi]) == []
  {
    ScoreOfUnmet(rs[lo..hi]);
    MetResultsUnmet(rs[lo..hi]);
  }

  /** Extending a prefix past one position and a run of unmet results. */
  lemma ScorePast(rs: seq<CriterionResult>, k: nat, hi: nat)
    requires k < hi <= |rs|
    requires forall i :: k < i < hi ==> !rs[i].met
    ensures ScoreOf(rs[0..hi]) == ScoreOf(rs[0..k]) + Contribution(rs[k])
  {
    UnmetSlice(rs, k + 1, hi);
    ScoreAround(rs, 0, k, hi);
  }

  lemma MetPast(rs: seq<CriterionResult>, k: nat, hi: nat)
    requires k < hi <= |rs|
    requires forall i :: k < i < hi ==> !rs[i].met
    ensures MetResults(rs[0..hi]) == MetResults(rs[0..k]) + IfMet(rs[k])
  {
    UnmetSlice(rs, k + 1, hi);
    MetAround(rs, 0, k, hi);
  }

  /** For 28 results met at most at 0, 6, 13 and 16, the score comes from
      those four positions alone. */
  lemma SparseScore(rs: seq<CriterionResult>)
    requires |rs| == 28
    requires forall i :: 0 <= i < 28 && rs[i].met ==> i == 0 || i == 6 || i == 13 || i == 16
    ensures ScoreOf(rs) == Contribution(rs[0]) + Contribution(rs[6]) + Contribution(rs[13]) + Contribution(rs[16])
  {
    ScoreFirstRules(rs);
    ScorePast(rs, 13, 16);
    ScorePast(rs, 16, 28);
    assert rs[0..28] == rs;
  }

  lemma ScoreFirstRules(rs: seq<CriterionResult>)
    requires |rs| == 28
    requires forall i :: 0 <= i < 28 && rs[i].met ==> i == 0 || i == 6 || i == 13 || i == 16
    ensures ScoreOf(rs[0..13]) == Contribution(rs[0]) + Contribution(rs[6])
  {
    UnmetSlice(rs, 0, 0);
    ScorePast(rs, 0, 6);
    ScorePast(rs, 6, 13);
  }

  /** For 28 results met at most at 0, 6, 13 and 16, the met results are
      those four positions, in order. */
  lemma SparseMet(rs: seq<CriterionResult>)
    requires |rs| == 28
    requires forall i :: 0 <= i < 28 && rs[i].met ==> i == 0 || i == 6 || i == 13 || i == 16
    ensures MetResults(rs) == IfMet(rs[0]) + IfMet(rs[6]) + IfMet(rs[13]) + IfMet(rs[16])
  {
    MetFirstRules(rs);
    MetPast(rs, 13, 16);
    MetPast(rs, 16, 28);
    assert rs[0..28] == rs;
  }

  lemma MetFirstRules(rs: seq<CriterionResult>)
    requires |rs| == 28
    requires forall i :: 0 <= i < 28 && rs[i].met ==> i == 0 || i == 6 || i == 13 || i == 16
    ensures MetResults(rs[0..13]) == IfMet(rs[0]) + IfMet(rs[6])
  {
    UnmetSlice(rs, 0, 0);
    MetPast(rs, 0, 6);
    MetPast(rs, 6, 13);
  }

  /** For 28 results met at most at 0, 6, 13 and 16, a weighted met result
      is one of those four. */
  lemma SparseConfidence(rs: seq<CriterionResult>)
    requires |rs| == 28
    requires forall i :: 0 <= i < 28 && rs[i].met ==> i == 0 || i == 6 || i == 13 || i == 16
    ensures HasWeightedMet(rs) <==>
      || (rs[0].met && ConfidenceWeight(rs[0].strength) > 0)
      || (rs[6].met && ConfidenceWeight(rs[6].strength) > 0)
      || (rs[13].met && ConfidenceWeight(rs[13].strength) > 0)
      || (rs[16].met && ConfidenceWeight(rs[16].strength) > 0)
  {
    if HasWeightedMet(rs) {
      var i :| 0 <= i < |rs| && rs[i].met && ConfidenceWeight(rs[i].strength) > 0;
      assert i == 0 || i == 6 || i == 13 || i == 16;
    }
  }

  /** The criteria of a list of results. */
  function CriteriaOf(ms: seq<CriterionResult>): (cs: seq<Criterion>)
    ensures |cs| == |ms|
  {
    seq(|ms|, i requires 0 <= i < |ms| => ms[i].criterion)
  }

  lemma CriteriaOfAppend(a: seq<CriterionResult>, b: seq<CriterionResult>)
    ensures CriteriaOf(a + b) == CriteriaOf(a) + CriteriaOf(b)
  {
  }

  /** The met criteria, in order. */
  function MetCriteria(rs: seq<CriterionResult>): seq<Criterion>
  {
    CriteriaOf(MetResults(rs))
  }

  /** The criteria of up to four results that may be met. */
  lemma CriteriaOfFour(a: CriterionResult, b: CriterionResult, c: CriterionResult, d: CriterionResult)
    ensures CriteriaOf(IfMet(a) + IfMet(b) + IfMet(c) + IfMet(d))
         == (if a.met then [a.criterion] else []) + (if b.met then [b.criterion] else [])
          + (if c.met then [c.criterion] else []) + (if d.met then [d.criterion] else [])
  {
    CriteriaOfAppend(IfMet(a) + IfMet(b) + IfMet(c), IfMet(d));
    CriteriaOfAppend(IfMet(a) + IfMet(b), IfMet(c));
    CriteriaOfAppend(IfMet(a), IfMet(b));
  }

  /** `_determine_classification`: the tier a score falls in. */
  function Tier(score: int): (c: Classification)
    ensures c == Pathogenic <==> score >= 8
    ensures c == LikelyPathogenic <==> 6 <= score < 8
    ensures c == UncertainSignificance <==> -6 < score < 6
    ensures c == LikelyBenign <==> -8 < score <= -6
    ensures c == Benign <==> score <= -8
  {
    if score >= 8 then Pathogenic
    else if score >= 6 then LikelyPathogenic
    else if score <= -8 then Benign
    else if score <= -6 then LikelyBenign
    else UncertainSignificance
  }

  /** Position of a tier from most pathogenic (0) to most benign (4). */
  function Rank(c: Classification): nat
  {
    match c
    case Pathogenic => 0
    case LikelyPathogenic => 1
    case UncertainSignificance => 2
    case LikelyBenign => 3
    case Benign => 4
  }

  /** A higher score never gives a more benign tier. */
  lemma TierMonotone(s1: int, s2: int)
    requires s1 <= s2
    ensures Rank(Tier(s2)) <= Rank(Tier(s1))
  {
  }

  /** The weight a strength carries in the confidence. */
  function ConfidenceWeight(s: Strength): nat
  {
    match s
    case VeryStrong => 4
    case Strong => 3
    case Moderate => 2
    case Supporting => 1
    case Standalone => 0
  }

  /** Some met criterion carries a positive confidence weight. */
  predicate HasWeightedMet(rs: seq<CriterionResult>)
  {
    exists i :: 0 <= i < |rs| && rs[i].met && ConfidenceWeight(rs[i].strength) > 0
  }

  /** The confidence: the weighted sum and the total weight are always equal,
      so it is 1.0 when a met criterion has positive weight, else 0.0. */
  function ConfidenceOf(rs: seq<CriterionResult>): real
  {
    if HasWeightedMet(rs) then 1.0 else 0.0
  }

  lemma DivideBySelf(x: real)
    requires x > 0.0
    ensures x / x == 1.0
  {
  }

  /** `_calculate_confidence`. */
  method CalculateConfidence(rs: seq<CriterionResult>) returns (confidence: real)
    ensures confidence == ConfidenceOf(rs)
  {
    var anyMet := exists i :: 0 <= i < |rs| && rs[i].met;
    if !anyMet {
      return 0.0;
    }
    var totalWeight := 0;
    var weightedSum := 0;
    for i := 0 to |rs|
      invariant weightedSum == totalWeight >= 0
      invariant totalWeight > 0 <==> HasWeightedMet(rs[..i])
    {
      assert rs[..i + 1][..i] == rs[..i];
      if rs[i].met {
        var weight := ConfidenceWeight(rs[i].strength);
        totalWeight := totalWeight + weight;
        weightedSum := weightedSum + weight;
        if weight > 0 {
          assert rs[..i + 1][i] == rs[i];
        }
      }
    }
    assert rs[..|rs|] == rs;
    var denominator := (if totalWeight > 1 then totalWeight else 1) as real;
    var ratio := weightedSum as real / denominator;
    if totalWeight > 0 {
      DivideBySelf(denominator);
    } else {
      assert ratio == 0.0;
    }
    confidence := if ratio < 1.0 then ratio else 1.0;
  }

  /** The reasoning line of one met result. */
  function Line(cr: CriterionResult): string
  {
    "  " + Code(cr.criterion) + ": " + Explain(cr.reason)
  }

  function Lines(met: seq<CriterionResult>): (ls: seq<string>)
    ensures |ls| == |met|
  {
    seq(|met|, i requires 0 <= i < |met| => Line(met[i]))
  }

  function Headline(c: Classification): string
  {
    "Classification: " + Label(c)
  }

  /** The reasoning text for a list of results and a tier. */
  function ReasoningText(rs: seq<CriterionResult>, c: Classification): string
  {
    var met := MetResults(rs);
    if |met| == 0 then Headline(c) + ". No ACMG criteria met."
    else Join("\n", Preamble(c) + Lines(met))
  }

  /** The two lines a reasoning text with criteria opens with. */
  function Preamble(c: Classification): seq<string>
  {
    [Headline(c), "Applied criteria:"]
  }

  /** `_generate_reasoning`. */
  method GenerateReasoning(rs: seq<CriterionResult>, c: Classification) returns (text: string)
    ensures text == ReasoningText(rs, c)
  {
    var met := MetResults(rs);
    if |met| == 0 {
      return Headline(c) + ". No ACMG criteria met.";
    }
    var parts := [Headline(c)];
    parts := parts + ["Applied criteria:"];
    assert parts == Preamble(c) + Lines(met[..0]);
    for i := 0 to |met|
      invariant parts == Preamble(c) + Lines(met[..i])
    {
      PartsSnoc(c, met, i);
      parts := parts + [Line(met[i])];
    }
    assert met[..|met|] == met;
    text := Join("\n", parts);
  }

  /** One more step of the reasoning loop adds the next line. */
  lemma PartsSnoc(c: Classification, met: seq<CriterionResult>, i: nat)
    requires i < |met|
    ensures Preamble(c) + Lines(met[..i]) + [Line(met[i])] == Preamble(c) + Lines(met[..i + 1])
  {
    assert met[..i + 1] == met[..i] + [met[i]];
    LinesSnoc(met[..i], met[i]);
  }

  /** Appending a result appends its line. */
  lemma LinesSnoc(met: seq<CriterionResult>, cr: CriterionResult)
    ensures Lines(met + [cr]) == Lines(met) + [Line(cr)]
  {
    var ls := Lines(met + [cr]);
    assert (met + [cr])[|met|] == cr;
    forall k | 0 <= k < |met| ensures ls[k] == Lines(met)[k] {
      assert (met + [cr])[k] == met[k];
    }
  }

  /** The reasoning opens with the tier, and names every met criterion on
      a line of its own. */
  lemma ReasoningMentions(rs: seq<CriterionResult>, c: Classification)
    ensures StartsWith(ReasoningText(rs, c), Headline(c))
    ensures forall k :: 0 <= k < |MetResults(rs)| ==> Contains(ReasoningText(rs, c), Line(MetResults(rs)[k]))
  {
    var met := MetResults(rs);
    var text := ReasoningText(rs, c);
    if |met| == 0 {
      assert text == Headline(c) + ". No ACMG criteria met.";
      assert text[..|Headline(c)|] == Headline(c);
    } else {
      var ls := Lines(met);
      JoinStartsWith("\n", Preamble(c) + ls);
      forall k | 0 <= k < |met| ensures Contains(text, Line(met[k])) {
        JoinContainsLater("\n", Preamble(c), ls, k);
      }
    }
  }

  /** The result when an evaluator raises. */
  function Fallback(v: Variant, error: string): ACMGResult
  {
    ACMGResult(v, UncertainSignificance, [], 0, "Classification failed: " + error, 0.0)
  }

  /** What `classify` returns for a variant. */
  function ClassifySpec(v: Variant): ACMGResult
  {
    match Evaluations(v)
    case Err(e) => Fallback(v, e)
    case Ok(rs) =>
      var score := ScoreOf(rs);
      var tier := Tier(score);
      ACMGResult(v, tier, MetCriteria(rs), score, ReasoningText(rs, tier), ConfidenceOf(rs))
  }

  /** `classify`: evaluate, score, grade, explain; never raises. */
  method Classify(v: Variant) returns (r: ACMGResult)
    ensures r == ClassifySpec(v)
    ensures r.variant == v
  {
    var evaluated := EvaluateCriteria(v);
    if evaluated.Err? {
      return Fallback(v, evaluated.error);
    }
    var rs := evaluated.value;
    var score := CalculateScore(rs);
    var tier := Tier(score);
    var reasoning := GenerateReasoning(rs, tier);
    var confidence := CalculateConfidence(rs);
    r := ACMGResult(v, tier, MetCriteria(rs), score, reasoning, confidence);
  }

  /** On failure `classify` returns the fallback: Uncertain Significance,
      no criteria, score 0, confidence 0.0, a reasoning that says so. */
  lemma ClassifyFails(v: Variant)
    ensures Evaluations(v).Err? <==> IsLof(v).Err? || AfIncomparable(v)
    ensures Evaluations(v).Err? ==>
      var r := ClassifySpec(v);
      r.classification == UncertainSignificance && r.criteria == [] && r.score == 0 && r.confidence == 0.0
      && StartsWith(r.reasoning, "Classification failed: ")
  {
    EvaluationsSucceed(v);
    if Evaluations(v).Err? {
      var r := ClassifySpec(v);
      assert r.reasoning[..|"Classification failed: "|] == "Classification failed: ";
    }
  }

  /** Which rules are met, read off the four real evaluators. */
  predicate Pvs1Met(v: Variant)
  {
    EvaluatePVS1(v).Ok? && EvaluatePVS1(v).value.met
  }

  predicate Pm2Met(v: Variant)
  {
    EvaluatePM2(v).Ok? && EvaluatePM2(v).value.met
  }

  predicate Ba1Met(v: Variant)
  {
    EvaluateBA1(v).Ok? && EvaluateBA1(v).value.met
  }

  /** A successful evaluation has its met results only at the rules. */
  lemma EvaluationsSparse(v: Variant)
    requires Evaluations(v).Ok?
    ensures |Evaluations(v).value| == 28
    ensures forall i :: 0 <= i < 28 && Evaluations(v).value[i].met ==> i == 0 || i == 6 || i == 13 || i == 16
  {
    var rs := Evaluations(v).value;
    forall i | 0 <= i < 28 && rs[i].met ensures i == 0 || i == 6 || i == 13 || i == 16 {
      MetOnlyAtRules(v, i);
    }
  }

  /** The four rule results, at positions 0, 6, 13 and 16, are the only
      ones that can be met. */
  lemma RuleFacts(v: Variant)
    requires Evaluations(v).Ok?
    ensures RuleShaped(Evaluations(v).value, Pvs1Met(v), Pm2Met(v), EvaluatePP3(v).met, Ba1Met(v))
  {
    EvaluationsSparse(v);
    RulePositions(v);
  }

  /** 28 results whose only possibly met entries are the four rules, with
      the given outcomes, at positions 0, 6, 13 and 16. */
  predicate RuleShaped(rs: seq<CriterionResult>, pvs1: bool, pm2: bool, pp3: bool, ba1: bool)
  {
    && |rs| == 28
    && (forall i :: 0 <= i < 28 && rs[i].met ==> i == 0 || i == 6 || i == 13 || i == 16)
    && rs[0].criterion == PVS1 && rs[0].met == pvs1 && rs[0].strength == VeryStrong
    && rs[6].criterion == PM2 && rs[6].met == pm2 && rs[6].strength == Moderate
    && rs[13].criterion == PP3 && rs[13].met == pp3 && rs[13].strength == Supporting
    && rs[16].criterion == BA1 && rs[16].met == ba1 && rs[16].strength == Standalone
  }

  /** The met criteria of rule-shaped results: the met rules, in order. */
  lemma RuleShapedCriteria(rs: seq<CriterionResult>, pvs1: bool, pm2: bool, pp3: bool, ba1: bool)
    requires RuleShaped(rs, pvs1, pm2, pp3, ba1)
    ensures MetCriteria(rs)
         == (if pvs1 then [PVS1] else []) + (if pm2 then [PM2] else [])
          + (if pp3 then [PP3] else []) + (if ba1 then [BA1] else [])
  {
    SparseMet(rs);
    CriteriaOfFour(rs[0], rs[6], rs[13], rs[16]);
  }

  /** The score of rule-shaped results: the weights of the met rules. */
  lemma RuleShapedScore(rs: seq<CriterionResult>, pvs1: bool, pm2: bool, pp3: bool, ba1: bool)
    requires RuleShaped(rs, pvs1, pm2, pp3, ba1)
    ensures ScoreOf(rs) == (if pvs1 then 8 else 0) + (if pm2 then 2 else 0) + (if pp3 then 1 else 0) - (if ba1 then 8 else 0)
  {
    SparseScore(rs);
  }

  /** The confidence of rule-shaped results. */
  lemma RuleShapedConfidence(rs: seq<CriterionResult>, pvs1: bool, pm2: bool, pp3: bool, ba1: bool)
    requires RuleShaped(rs, pvs1, pm2, pp3, ba1)
    ensures ConfidenceOf(rs) == if pvs1 || pm2 || pp3 then 1.0 else 0.0
  {
    SparseConfidence(rs);
  }

  /** The met criteria of a successful evaluation: the met rules, in order. */
  lemma MetCriteriaOfEvaluations(v: Variant)
    requires Evaluations(v).Ok?
    ensures MetCriteria(Evaluations(v).value)
         == (if Pvs1Met(v) then [PVS1] else []) + (if Pm2Met(v) then [PM2] else [])
          + (if EvaluatePP3(v).met then [PP3] else []) + (if Ba1Met(v) then [BA1] else [])
  {
    RuleFacts(v);
    RuleShapedCriteria(Evaluations(v).value, Pvs1Met(v), Pm2Met(v), EvaluatePP3(v).met, Ba1Met(v));
  }

  /** The score of a successful evaluation: the weights of the met rules. */
  lemma ScoreOfEvaluations(v: Variant)
    requires Evaluations(v).Ok?
    ensures ScoreOf(Evaluations(v).value)
         == (if Pvs1Met(v) then 8 else 0) + (if Pm2Met(v) then 2 else 0)
          + (if EvaluatePP3(v).met then 1 else 0) - (if Ba1Met(v) then 8 else 0)
  {
    RuleFacts(v);
    RuleShapedScore(Evaluations(v).value, Pvs1Met(v), Pm2Met(v), EvaluatePP3(v).met, Ba1Met(v));
  }

  /** The confidence of a successful evaluation. */
  lemma ConfidenceOfEvaluations(v: Variant)
    requires Evaluations(v).Ok?
    ensures ConfidenceOf(Evaluations(v).value) == if Pvs1Met(v) || Pm2Met(v) || EvaluatePP3(v).met then 1.0 else 0.0
  {
    RuleFacts(v);
    RuleShapedConfidence(Evaluations(v).value, Pvs1Met(v), Pm2Met(v), EvaluatePP3(v).met, Ba1Met(v));
  }

  /** On success the criteria are the met rules, in declaration order. */
  lemma ClassifyCriteria(v: Variant)
    requires Evaluations(v).Ok?
    ensures ClassifySpec(v).criteria
         == (if Pvs1Met(v) then [PVS1] else []) + (if Pm2Met(v) then [PM2] else [])
          + (if EvaluatePP3(v).met then [PP3] else []) + (if Ba1Met(v) then [BA1] else [])
  {
    MetCriteriaOfEvaluations(v);
  }

  /** On success the score is the sum of the weights of the met rules, and
      the tier follows the score. */
  lemma ClassifyScore(v: Variant)
    requires Evaluations(v).Ok?
    ensures ClassifySpec(v).score
         == (if Pvs1Met(v) then 8 else 0) + (if Pm2Met(v) then 2 else 0)
          + (if EvaluatePP3(v).met then 1 else 0) - (if Ba1Met(v) then 8 else 0)
    ensures ClassifySpec(v).classification == Tier(ClassifySpec(v).score)
  {
    ScoreOfEvaluations(v);
  }

  /** Confidence is 1.0 exactly when PVS1, PM2 or PP3 is met: BA1 alone
      leaves it at 0.0, since a standalone criterion weighs nothing. */
  lemma ClassifyConfidence(v: Variant)
    requires Evaluations(v).Ok?
    ensures ClassifySpec(v).confidence == if Pvs1Met(v) || Pm2Met(v) || EvaluatePP3(v).met then 1.0 else 0.0
  {
    ConfidenceOfEvaluations(v);
  }

  /** PM2 and BA1 are never met together, so the score lies in [-8, 11]. */
  lemma ScoreRange(v: Variant)
    ensures !(Pm2Met(v) && Ba1Met(v))
    ensures -8 <= ClassifySpec(v).score <= 11
  {
    if Evaluations(v).Ok? {
      ClassifyScore(v);
    }
  }

  /** The rules the pathogenic test variant meets. */
  lemma PathogenicRules(v: Variant)
    requires v.gene == JStr("BRCA1") && v.impact == JStr("HIGH")
    requires v.gnomadAf.JNum? && v.gnomadAf.n < 0.0001
    requires v.caddScore == Some(25.0) && v.polyphenScore == Some(0.95) && v.siftScore == Some(0.01)
    ensures Evaluations(v).Ok?
    ensures Pvs1Met(v) && Pm2Met(v) && EvaluatePP3(v).met && !Ba1Met(v)
  {
    assert Pvs1Met(v) by {
      assert AsciiUpper("HIGH") == "HIGH";
      assert StartsWith("HIGH", "HIGH");
      assert IsLof(v) == Ok(true);
      assert v.gene == JStr(LofGenes[0]);
    }
    EvaluationsSucceed(v);
  }

  /** A variant like the pathogenic test variant (BRCA1, impact HIGH, AF
      below 0.0001 such as 0.000001, CADD 25, PolyPhen 0.95, SIFT 0.01)
      meets PVS1, PM2 and PP3, scores 11 and is Pathogenic with confidence
      1.0. */
  lemma PathogenicExample(v: Variant)
    requires v.gene == JStr("BRCA1") && v.impact == JStr("HIGH")
    requires v.gnomadAf.JNum? && v.gnomadAf.n < 0.0001
    requires v.caddScore == Some(25.0) && v.polyphenScore == Some(0.95) && v.siftScore == Some(0.01)
    ensures ClassifySpec(v).score == 11 && ClassifySpec(v).classification == Pathogenic
    ensures ClassifySpec(v).confidence == 1.0
  {
    assert ClassifySpec(v).score == 11 && ClassifySpec(v).classification == Pathogenic by {
      PathogenicRules(v);
      ClassifyScore(v);
    }
    assert ClassifySpec(v).confidence == 1.0 by {
      PathogenicRules(v);
      ClassifyConfidence(v);
    }
  }

  /** The criteria the pathogenic test variant gets. */
  lemma PathogenicExampleCriteria(v: Variant)
    requires v.gene == JStr("BRCA1") && v.impact == JStr("HIGH")
    requires v.gnomadAf.JNum? && v.gnomadAf.n < 0.0001
    requires v.caddScore == Some(25.0) && v.polyphenScore == Some(0.95) && v.siftScore == Some(0.01)
    ensures ClassifySpec(v).criteria == [PVS1, PM2, PP3]
  {
    assert [PVS1] + [PM2] + [PP3] + [] == [PVS1, PM2, PP3];
    PathogenicRules(v);
    ClassifyCriteria(v);
  }


  /** The rules the benign test variant meets. */
  lemma BenignRules(v: Variant)
    requires v.impact == JNull && v.hgvsP == JNull && v.gnomadAf.JNum? && v.gnomadAf.n > 0.05
    requires v.caddScore == Some(5.0) && v.polyphenScore == Some(0.1) && v.siftScore == Some(0.5)
    ensures Evaluations(v).Ok?
    ensures !Pvs1Met(v) && !Pm2Met(v) && !EvaluatePP3(v).met && Ba1Met(v)
  {
    assert IsLof(v) == Ok(false);
    EvaluationsSucceed(v);
  }

  /** A variant like the benign test variant (no impact or protein change,
      AF above 0.05 such as 0.1, CADD 5, PolyPhen 0.1, SIFT 0.5) meets BA1
      alone: Benign, score -8, and confidence 0.0. */
  lemma BenignExample(v: Variant)
    requires v.impact == JNull && v.hgvsP == JNull && v.gnomadAf.JNum? && v.gnomadAf.n > 0.05
    requires v.caddScore == Some(5.0) && v.polyphenScore == Some(0.1) && v.siftScore == Some(0.5)
    ensures ClassifySpec(v).score == -8 && ClassifySpec(v).classification == Benign
    ensures ClassifySpec(v).confidence == 0.0
  {
    assert ClassifySpec(v).score == -8 && ClassifySpec(v).classification == Benign by {
      BenignRules(v);
      ClassifyScore(v);
    }
    assert ClassifySpec(v).confidence == 0.0 by {
      BenignRules(v);
      ClassifyConfidence(v);
    }
  }

  /** The criteria the benign test variant gets. */
  lemma BenignExampleCriteria(v: Variant)
    requires v.impact == JNull && v.hgvsP == JNull && v.gnomadAf.JNum? && v.gnomadAf.n > 0.05
    requires v.caddScore == Some(5.0) && v.polyphenScore == Some(0.1) && v.siftScore == Some(0.5)
    ensures ClassifySpec(v).criteria == [BA1]
  {
    BenignRules(v);
    ClassifyCriteria(v);
  }


  /** PVS1 with PM2 alone scores 10, whatever their explanations. */
  lemma ScorePvs1Pm2(r1: Reason, r2: Reason)
    ensures ScoreOf([CriterionResult(PVS1, true, VeryStrong, r1), CriterionResult(PM2, true, Moderate, r2)]) == 10
  {
    var rs := [CriterionResult(PVS1, true, VeryStrong, r1), CriterionResult(PM2, true, Moderate, r2)];
    assert rs[..1][..0] == [];
    assert ScoreOf(rs[..1]) == 8;
  }
}
