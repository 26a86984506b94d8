/** The record normaliser: raw VCF records (as the VCF reader hands them
    over) become Variants. It decides the variant type, flattens the INFO
    values, picks gene, transcript, HGVS and impact through their aliases,
    collects the records that parse and skips the rest, and scans records
    for missing mandatory fields with a cap on the number of errors. */
module Parser {
  import opened Wrappers
  import opened Strings
  import opened Utf8
  import opened Json
  import opened Models

  /** One element of an INFO value. */
  datatype Scalar = SStr(s: string) | SInt(i: int) | SReal(r: real) | SBool(b: bool) | SNone

  /** An INFO value: a single element, a list or tuple of elements, or raw bytes. */
  datatype InfoValue = Single(x: Scalar) | Many(xs: seq<Scalar>) | Bytes(bs: seq<byte>)

  /** A record as the VCF reader delivers it: `alt` is the ALT list, and
      `id`, `qual` and `filter` are `None` when the column is missing. */
  datatype RawRecord = RawRecord(
    chrom: string,
    pos: int,
    ref: string,
    alt: seq<string>,
    id: Option<string>,
    qual: Option<real>,
    filter: Option<string>,
    info: map<string, InfoValue>)

  /** Python's `bool(value)` on a raw INFO value. */
  predicate RawTruthy(v: InfoValue)
  {
    match v
    case Single(SStr(s)) => s != ""
    case Single(SInt(i)) => i != 0
    case Single(SReal(r)) => r != 0.0
    case Single(SBool(b)) => b
    case Single(SNone) => false
    case Many(xs) => xs != []
    case Bytes(bs) => bs != []
  }

  /** Length of the first ALT allele, 0 when there is none. */
  function AltLength(r: RawRecord): nat
  {
    if |r.alt| > 0 then |r.alt[0]| else 0
  }

  /** Whether the INFO map has a truthy SVTYPE. */
  predicate HasSvType(r: RawRecord)
  {
    "SVTYPE" in r.info && RawTruthy(r.info["SVTYPE"])
  }

  /** `_determine_variant_type`. */
  function DetermineType(r: RawRecord): (t: VariantType)
    ensures t == INDEL <==> |r.ref| != AltLength(r)
    ensures t == SV <==> |r.ref| == AltLength(r) && |r.ref| != 1 && HasSvType(r)
    ensures t == SNV <==> |r.ref| == AltLength(r) && (|r.ref| == 1 || !HasSvType(r))
  {
    if |r.ref| == 1 && AltLength(r) == 1 then SNV
    else if |r.ref| != AltLength(r) then INDEL
    else if HasSvType(r) then SV
    else SNV
  }

  /** The parser never produces CNV, and a missing ALT with a non-empty
      reference is an insertion or deletion. */
  lemma NeverCnv(r: RawRecord)
    ensures DetermineType(r) != CNV
    ensures |r.alt| == 0 && |r.ref| > 0 ==> DetermineType(r) == INDEL
  {
  }

  /** Python's `str(x)` on an element; the rendering of floats is supplied
      by the caller. */
  function Str(x: Scalar, showReal: real -> string): string
  {
    match x
    case SStr(s) => s
    case SInt(i) => IntToString(i)
    case SReal(r) => showReal(r)
    case SBool(b) => if b then "True" else "False"
    case SNone => "None"
  }

  /** The element strings of a list value. */
  function Strs(xs: seq<Scalar>, showReal: real -> string): (ss: seq<string>)
    ensures |ss| == |xs|
  {
    seq(|xs|, i requires 0 <= i < |xs| => Str(xs[i], showReal))
  }

  /** How one INFO value is stored: lists comma-joined, bytes decoded with
      invalid sequences dropped, strings as they are, everything else unchanged. */
  function Flatten(v: InfoValue, showReal: real -> string): (j: Json)
    ensures v.Many? || v.Bytes? || (v.Single? && v.x.SStr?) ==> j.JStr?
    ensures v.Single? ==> (Truthy(j) <==> RawTruthy(v))
  {
    match v
    case Many(xs) => JStr(Join(",", Strs(xs, showReal)))
    case Bytes(bs) => JStr(DecodeIgnore(bs))
    case Single(SStr(s)) => JStr(s)
    case Single(SInt(i)) => JNum(i as real)
    case Single(SReal(r)) => JNum(r)
    case Single(SBool(b)) => JBool(b)
    case Single(SNone) => JNull
  }

  /** A list of texts without commas is recovered by splitting its stored value. */
  lemma FlattenSplit(strs: seq<string>, showReal: real -> string)
    requires |strs| >= 1
    requires forall i :: 0 <= i < |strs| ==> ',' !in strs[i]
    ensures Split(Flatten(Many(seq(|strs|, i requires 0 <= i < |strs| => SStr(strs[i]))), showReal).s, ',') == strs
  {
    var xs := seq(|strs|, i requires 0 <= i < |strs| => SStr(strs[i]));
    assert Strs(xs, showReal) == strs;
    SplitJoin(strs, ',');
  }

  /** Bytes that are the UTF-8 encoding of a text are stored as that text. */
  lemma FlattenUtf8(s: string, showReal: real -> string)
    ensures Flatten(Bytes(Encode(s)), showReal) == JStr(s)
  {
    DecodeEncode(s);
  }

  /** `_parse_info` as a value: the same keys, each value flattened. */
  function FlattenInfo(raw: map<string, InfoValue>, showReal: real -> string): (info: map<string, Json>)
    ensures info.Keys == raw.Keys
    ensures forall k :: k in info ==> info[k] == Flatten(raw[k], showReal)
  {
    map k | k in raw :: Flatten(raw[k], showReal)
  }

  /** `_parse_info`: fills the INFO dictionary key by key. */
  method ParseInfo(raw: map<string, InfoValue>, showReal: real -> string) returns (info: map<string, Json>)
    ensures info == FlattenInfo(raw, showReal)
  {
    info := map[];
    var remaining := raw.Keys;
    while remaining != {}
      invariant remaining <= raw.Keys
      invariant info.Keys == raw.Keys - remaining
      invariant forall k :: k in info ==> info[k] == Flatten(raw[k], showReal)
      decreases remaining
    {
      var key :| key in remaining;
      info := info[key := Flatten(raw[key], showReal)];
      remaining := remaining - {key};
    }
  }

  /** `info.get(primary, info.get(fallback, None))`: the primary key wins
      whenever it is present, whatever its value. */
  function Alias(info: map<string, Json>, primary: string, fallback: string): (j: Json)
    ensures primary in info ==> j == info[primary]
    ensures primary !in info && fallback in info ==> j == info[fallback]
    ensures primary !in info && fallback !in info ==> j == JNull
  {
    GetOr(info, primary, Get(info, fallback))
  }

  /** A value an optional text field of a Variant accepts. */
  predicate OptionalText(j: Json)
  {
    j.JNull? || j.JStr?
  }

  /** A text column that is kept only when non-empty. */
  function NonEmpty(s: Option<string>): (r: Option<string>)
    ensures r.Some? <==> s.Some? && s.value != ""
    ensures r.Some? ==> r == s
  {
    if s.Some? && s.value != "" then s else None
  }

  /** The five annotation values a record's INFO map supplies: gene,
      transcript, cDNA and protein change, impact. */
  function Annotations(info: map<string, Json>): seq<Json>
  {
    [Alias(info, "Gene_Name", "Gene"), Alias(info, "Transcript_ID", "Feature"),
     Get(info, "HGVSc"), Get(info, "HGVSp"), Alias(info, "IMPACT", "Consequence")]
  }

  /** `_parse_record`: `None` when the Variant cannot be built, which
      happens when one of the five annotation values is not a text. */
  function ParseRecord(r: RawRecord, showReal: real -> string): (res: Option<Variant>)
    ensures var a := Annotations(FlattenInfo(r.info, showReal));
      res.Some? <==> forall k :: 0 <= k < 5 ==> OptionalText(a[k])
    ensures res.Some? ==>
      var v := res.value;
      var info := FlattenInfo(r.info, showReal);
      && v.chrom == r.chrom && v.pos == r.pos && v.ref == r.ref
      && v.alt == (if |r.alt| > 0 then r.alt[0] else "")
      && v.variantType == DetermineType(r)
      && v.id == NonEmpty(r.id) && v.filter == NonEmpty(r.filter)
      && (v.qual.Some? <==> r.qual.Some? && r.qual.value != 0.0)
      && (v.qual.Some? ==> v.qual == r.qual)
      && v.info == info
      && [v.gene, v.transcript, v.hgvsC, v.hgvsP, v.impact] == Annotations(info)
      && v.clinvarSignificance == JNull && v.clinvarDiseases == JArr([]) && v.gnomadAf == JNull
      && v.caddScore == None && v.polyphenScore == None && v.siftScore == None
      && v.acmgClassification == None && v.acmgCriteria == [] && v.acmgScore == None && v.acmgReasoning == None
  {
    var info := FlattenInfo(r.info, showReal);
    var a := Annotations(info);
    if OptionalText(a[0]) && OptionalText(a[1]) && OptionalText(a[2]) && OptionalText(a[3]) && OptionalText(a[4]) then
      var base := NewVariant(r.chrom, r.pos, r.ref, if |r.alt| > 0 then r.alt[0] else "", DetermineType(r));
      Some(base.(id := NonEmpty(r.id),
                 qual := if r.qual.Some? && r.qual.value != 0.0 then r.qual else None,
                 filter := NonEmpty(r.filter),
                 info := info,
                 gene := a[0], transcript := a[1], hgvsC := a[2], hgvsP := a[3], impact := a[4]))
    else None
  }

  /** The values present in a sequence of optional values, in order. */
  function Somes<T>(os: seq<Option<T>>): (vs: seq<T>)
    ensures |vs| <= |os|
  {
    if |os| == 0 then []
    else Somes(os[..|os| - 1]) + (if os[|os| - 1].Some? then [os[|os| - 1].value] else [])
  }

  lemma {:induction false} SomesAppend<T>(a: seq<Option<T>>, b: seq<Option<T>>)
    ensures Somes(a + b) == Somes(a) + Somes(b)
    decreases |b|
  {
    if |b| == 0 {
      assert a + b == a;
    } else {
      assert (a + b)[..|a + b| - 1] == a + b[..|b| - 1];
      SomesAppend(a, b[..|b| - 1]);
    }
  }

  /** With every value present nothing is dropped and order is kept. */
  lemma {:induction false} SomesAll<T>(os: seq<Option<T>>)
    requires forall i :: 0 <= i < |os| ==> os[i].Some?
    ensures |Somes(os)| == |os|
    ensures forall i :: 0 <= i < |os| ==> Somes(os)[i] == os[i].value
  {
    if |os| > 0 {
      SomesAll(os[..|os| - 1]);
    }
  }

  /** Every kept value was present in the input. */
  lemma {:induction false} SomesSound<T>(os: seq<Option<T>>, k: nat)
    requires k < |Somes(os)|
    ensures exists i :: 0 <= i < |os| && os[i] == Some(Somes(os)[k])
  {
    var n := |os| - 1;
    var init := Somes(os[..n]);
    if k < |init| {
      SomesSound(os[..n], k);
      var i :| 0 <= i < n && os[..n][i] == Some(init[k]);
      assert os[..n][i] == os[i];
    } else {
      assert os[n] == Some(Somes(os)[k]);
    }
  }

  /** The outcome of parsing each record. */
  function ParseEach(records: seq<RawRecord>, showReal: real -> string): (os: seq<Option<Variant>>)
    ensures |os| == |records|
    ensures forall i :: 0 <= i < |records| ==> os[i] == ParseRecord(records[i], showReal)
  {
    seq(|records|, i requires 0 <= i < |records| => ParseRecord(records[i], showReal))
  }

  /** Parsing one more record adds its outcome. */
  lemma ParseEachSnoc(records: seq<RawRecord>, i: nat, showReal: real -> string)
    requires i < |records|
    ensures Somes(ParseEach(records[..i + 1], showReal))
         == Somes(ParseEach(records[..i], showReal))
          + (if ParseRecord(records[i], showReal).Some? then [ParseRecord(records[i], showReal).value] else [])
  {
    var os := ParseEach(records[..i + 1], showReal);
    assert os[..i] == ParseEach(records[..i], showReal);
  }

  /** The Variants of the records that parse, in input order. */
  function ParseAll(records: seq<RawRecord>, showReal: real -> string): seq<Variant>
  {
    Somes(ParseEach(records, showReal))
  }

  /** `parse`: keeps each record that parses, skips each that does not. */
  method Parse(records: seq<RawRecord>, showReal: real -> string) returns (variants: seq<Variant>)
    ensures variants == ParseAll(records, showReal)
  {
    variants := [];
    for i := 0 to |records|
      invariant variants == Somes(ParseEach(records[..i], showReal))
    {
      var variant := ParseRecord(records[i], showReal);
      ParseEachSnoc(records, i, showReal);
      if variant.Some? {
        variants := variants + [variant.value];
      }
    }
    assert records[..|records|] == records;
  }

  lemma ParseEachAppend(a: seq<RawRecord>, b: seq<RawRecord>, showReal: real -> string)
    ensures ParseEach(a + b, showReal) == ParseEach(a, showReal) + ParseEach(b, showReal)
  {
    var whole := ParseEach(a + b, showReal);
    forall k | 0 <= k < |whole|
      ensures whole[k] == (ParseEach(a, showReal) + ParseEach(b, showReal))[k]
    {
      if k >= |a| {
        assert (a + b)[k] == b[k - |a|];
      }
    }
  }

  /** Parsing is compositional: each batch of records contributes its own
      Variants, so a record that fails to parse does not affect the others. */
  lemma ParseAllAppend(a: seq<RawRecord>, b: seq<RawRecord>, showReal: real -> string)
    ensures ParseAll(a + b, showReal) == ParseAll(a, showReal) + ParseAll(b, showReal)
  {
    ParseEachAppend(a, b, showReal);
    SomesAppend(ParseEach(a, showReal), ParseEach(b, showReal));
  }

  /** A single record yields its Variant if it parses and nothing otherwise. */
  lemma ParseAllOne(r: RawRecord, showReal: real -> string)
    ensures ParseAll([r], showReal) == if ParseRecord(r, showReal).Some? then [ParseRecord(r, showReal).value] else []
  {
    var os := ParseEach([r], showReal);
    assert os[..0] == [];
  }

  /** When every record parses, nothing is dropped and order is kept. */
  lemma ParseAllComplete(records: seq<RawRecord>, showReal: real -> string)
    requires forall i :: 0 <= i < |records| ==> ParseRecord(records[i], showReal).Some?
    ensures |ParseAll(records, showReal)| == |records|
    ensures forall i :: 0 <= i < |records| ==> ParseAll(records, showReal)[i] == ParseRecord(records[i], showReal).value
  {
    SomesAll(ParseEach(records, showReal));
  }

  /** Every Variant `parse` returns is the parse of one of the records. */
  lemma ParseAllSound(records: seq<RawRecord>, showReal: real -> string, k: nat)
    requires k < |ParseAll(records, showReal)|
    ensures exists i :: 0 <= i < |records| && ParseRecord(records[i], showReal) == Some(ParseAll(records, showReal)[k])
  {
    SomesSound(ParseEach(records, showReal), k);
  }

  /** The problems `validate` reports. */
  datatype ValidationError =
    | NoSamples
    | MissingChromHeader
    | MissingChromosome(n: nat)
    | InvalidPosition(n: nat)
    | MissingReference(n: nat)
    | MissingAlternate(n: nat)
    | Truncated

  /** The message text of a problem. */
  function Message(e: ValidationError): string
  {
    match e
    case NoSamples => "No samples found in VCF header"
    case MissingChromHeader => "Missing #CHROM header line"
    case MissingChromosome(n) => "Missing chromosome at variant " + NatToString(n)
    case InvalidPosition(n) => "Invalid position at variant " + NatToString(n)
    case MissingReference(n) => "Missing reference allele at variant " + NatToString(n)
    case MissingAlternate(n) => "Missing alternate allele at variant " + NatToString(n)
    case Truncated => "... (additional errors truncated)"
  }

  datatype ValidationResult = ValidationResult(isValid: bool, variantCount: nat, sampleCount: nat, errors: seq<ValidationError>)

  /** A record with all four mandatory fields. */
  predicate Complete(r: RawRecord)
  {
    r.chrom != "" && r.pos > 0 && r.ref != "" && |r.alt| > 0
  }

  /** `errors` with the problems of the record numbered `n` (counting
      from 1) appended, in the order they are checked. */
  function Checked(errors: seq<ValidationError>, r: RawRecord, n: nat): (es: seq<ValidationError>)
    ensures |errors| <= |es| <= |errors| + 4
    ensures es[..|errors|] == errors
    ensures |es| == |errors| <==> Complete(r)
    ensures forall k :: |errors| <= k < |es| ==> es[k] != Truncated
  {
    var e1 := if r.chrom == "" then errors + [MissingChromosome(n)] else errors;
    var e2 := if r.pos <= 0 then e1 + [InvalidPosition(n)] else e1;
    var e3 := if r.ref == "" then e2 + [MissingReference(n)] else e2;
    if |r.alt| == 0 then e3 + [MissingAlternate(n)] else e3
  }

  /** The problems of the header. */
  function HeaderErrors(sampleCount: nat, hasChromHeader: bool): (es: seq<ValidationError>)
    ensures |es| <= 2
    ensures es == [] <==> sampleCount > 0 && hasChromHeader
  {
    (if sampleCount == 0 then [NoSamples] else []) + (if hasChromHeader then [] else [MissingChromHeader])
  }

  /** The record loop of `validate`, from `count` records already seen and
      `errors` already found: the errors and the final count. It stops
      after the record that brings the errors to ten or more, adding the
      truncation marker. */
  function Scan(records: seq<RawRecord>, errors: seq<ValidationError>, count: nat): (seq<ValidationError>, nat)
    decreases |records|
  {
    if |records| == 0 then (errors, count)
    else
      var errors' := Checked(errors, records[0], count + 1);
      if |errors'| >= 10 then (errors' + [Truncated], count + 1)
      else Scan(records[1..], errors', count + 1)
  }

  /** What `validate` returns. */
  function ValidateSpec(sampleCount: nat, hasChromHeader: bool, records: seq<RawRecord>): (v: ValidationResult)
    ensures v.isValid <==> v.errors == []
    ensures v.sampleCount == sampleCount
  {
    var (errors, count) := Scan(records, HeaderErrors(sampleCount, hasChromHeader), 0);
    ValidationResult(|errors| == 0, count, sampleCount, errors)
  }

  /** The four field checks `validate` makes on the record numbered `n`. */
  method CheckRecord(errors: seq<ValidationError>, r: RawRecord, n: nat) returns (es: seq<ValidationError>)
    ensures es == Checked(errors, r, n)
  {
    es := errors;
    if r.chrom == "" {
      es := es + [MissingChromosome(n)];
    }
    if r.pos <= 0 {
      es := es + [InvalidPosition(n)];
    }
    if r.ref == "" {
      es := es + [MissingReference(n)];
    }
    if |r.alt| == 0 {
      es := es + [MissingAlternate(n)];
    }
  }

  /** `validate`, with the header's sample count and whether it has a
      `#CHROM` line as inputs. */
  method Validate(sampleCount: nat, hasChromHeader: bool, records: seq<RawRecord>) returns (result: ValidationResult)
    ensures result == ValidateSpec(sampleCount, hasChromHeader, records)
  {
    var errors: seq<ValidationError> := [];
    var variantCount: nat := 0;
    if sampleCount == 0 {
      errors := errors + [NoSamples];
    }
    if !hasChromHeader {
      errors := errors + [MissingChromHeader];
    }
    assert errors == HeaderErrors(sampleCount, hasChromHeader);
    ghost var outcome := Scan(records, errors, 0);
    assert records[0..] == records;
    var i := 0;
    while i < |records|
      invariant i <= |records|
      invariant variantCount == i
      invariant Scan(records[i..], errors, variantCount) == outcome
    {
      variantCount := variantCount + 1;
      errors := CheckRecord(errors, records[i], variantCount);
      assert records[i..][1..] == records[i + 1..];
      if |errors| >= 10 {
        errors := errors + [Truncated];
        assert (errors, variantCount) == outcome;
        break;
      }
      i := i + 1;
    }
    assert (errors, variantCount) == outcome;
    result := ValidationResult(|errors| == 0, variantCount, sampleCount, errors);
  }

  /** The scan never loses an error it already has. */
  lemma {:induction false} ScanKeeps(records: seq<RawRecord>, errors: seq<ValidationError>, count: nat)
    ensures |errors| <= |Scan(records, errors, count).0|
    ensures Scan(records, errors, count).0[..|errors|] == errors
    decreases |records|
  {
    if |records| > 0 {
      var errors' := Checked(errors, records[0], count + 1);
      if |errors'| < 10 {
        ScanKeeps(records[1..], errors', count + 1);
        var es := Scan(records[1..], errors', count + 1).0;
        assert es[..|errors|] == es[..|errors'|][..|errors|];
      }
    }
  }

  /** The scan never counts more records than it is given, and stops early
      only with at least eleven errors, the marker last. */
  lemma {:induction false} ScanStops(records: seq<RawRecord>, errors: seq<ValidationError>, count: nat)
    ensures count <= Scan(records, errors, count).1 <= count + |records|
    ensures Scan(records, errors, count).1 < count + |records| ==>
      |Scan(records, errors, count).0| >= 11 && Scan(records, errors, count).0[|Scan(records, errors, count).0| - 1] == Truncated
    decreases |records|
  {
    if |records| > 0 {
      var errors' := Checked(errors, records[0], count + 1);
      if |errors'| < 10 {
        ScanStops(records[1..], errors', count + 1);
      }
    }
  }

  /** Starting below the cap, the scan ends with at most 14 errors: at most
      nine before the last record it reads, four from it and the marker. */
  lemma {:induction false} ScanBound(records: seq<RawRecord>, errors: seq<ValidationError>, count: nat)
    requires |errors| < 10
    ensures |Scan(records, errors, count).0| <= 14
    decreases |records|
  {
    if |records| > 0 {
      var errors' := Checked(errors, records[0], count + 1);
      if |errors'| < 10 {
        ScanBound(records[1..], errors', count + 1);
      }
    }
  }

  /** With no errors so far and only complete records, the scan reads
      every record and finds nothing. */
  lemma {:induction false} ScanClean(records: seq<RawRecord>, count: nat)
    requires forall i :: 0 <= i < |records| ==> Complete(records[i])
    ensures Scan(records, [], count) == ([], count + |records|)
    decreases |records|
  {
    if |records| > 0 {
      ScanClean(records[1..], count + 1);
    }
  }

  /** An incomplete record anywhere makes the scan report something. */
  lemma {:induction false} ScanFlags(records: seq<RawRecord>, errors: seq<ValidationError>, count: nat, i: nat)
    requires i < |records| && !Complete(records[i])
    ensures Scan(records, errors, count).0 != []
    decreases |records|
  {
    var errors' := Checked(errors, records[0], count + 1);
    if |errors'| < 10 {
      if i == 0 {
        ScanKeeps(records[1..], errors', count + 1);
      } else {
        ScanFlags(records[1..], errors', count + 1, i - 1);
      }
    }
  }

  /** A header with samples and a `#CHROM` line and complete records pass,
      with every record counted; a header problem or an incomplete record
      fails validation; the error list never exceeds 14 entries. */
  lemma ValidateVerdict(sampleCount: nat, hasChromHeader: bool, records: seq<RawRecord>)
    ensures var v := ValidateSpec(sampleCount, hasChromHeader, records);
      && |v.errors| <= 14
      && v.variantCount <= |records|
      && (v.isValid <==> sampleCount > 0 && hasChromHeader && forall i :: 0 <= i < |records| ==> Complete(records[i]))
      && (v.isValid ==> v.variantCount == |records|)
  {
    var header := HeaderErrors(sampleCount, hasChromHeader);
    ScanBound(records, header, 0);
    ScanStops(records, header, 0);
    ScanKeeps(records, header, 0);
    if sampleCount > 0 && hasChromHeader && forall i :: 0 <= i < |records| ==> Complete(records[i]) {
      ScanClean(records, 0);
    } else if exists i :: 0 <= i < |records| && !Complete(records[i]) {
      var i :| 0 <= i < |records| && !Complete(records[i]);
      ScanFlags(records, header, 0, i);
    }
  }
}
