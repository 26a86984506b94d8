/** The gnomAD annotator without its HTTP calls: the variant identifier and
    GraphQL query it sends, the variant object it takes from the response,
    the frequency block `annotate` picks, the per-population frequencies and
    the common-variant test. A response is `None` when the request failed
    and otherwise the decoded JSON body. */
module Gnomad {
  import opened Wrappers
  import opened Strings
  import opened Json
  import opened Models

  /** `{chrom}-{pos}-{ref}-{alt}` with one leading "chr" removed. */
  function VariantId(v: Variant): string
  {
    VariantKey(v, '-')
  }

  /** `n` spaces. */
  function Spaces(n: nat): (s: string)
    ensures |s| == n && forall i :: 0 <= i < n ==> s[i] == ' '
  {
    if n == 0 then "" else " " + Spaces(n - 1)
  }

  /** One line of the query template: indentation, text and a line break. */
  function Line(indent: nat, text: string): string
  {
    Spaces(indent) + text + "\n"
  }

  /** The query text around `variantId: "<id>"`, line by line. */
  const QueryPrefix: string := "\n" + Line(8, "{") + Spaces(12) + "variant(dataset: " + "gnomad_r4, "
  const QuerySelection: string :=
    ") {\n" + Line(16, "chrom") + Line(16, "pos") + Line(16, "ref") + Line(16, "alt")
    + Line(16, "genome {") + Line(20, "ac") + Line(20, "an") + Line(20, "af") + Line(20, "homozygote_count") + Line(16, "}")
    + Line(16, "exome {") + Line(20, "ac") + Line(20, "an") + Line(20, "af") + Line(20, "homozygote_count") + Line(16, "}")
    + Line(12, "}") + Line(8, "}") + Spaces(8)

  /** How the query names the variant. */
  function VariantTerm(v: Variant): string
  {
    "variantId: \"" + VariantId(v) + "\""
  }

  /** `_build_graphql_query`. */
  function GraphqlQuery(v: Variant): string
  {
    QueryPrefix + VariantTerm(v) + QuerySelection
  }

  /** The query asks for the variant by its identifier, in quotes. */
  lemma QueryNamesVariant(v: Variant)
    ensures Contains(GraphqlQuery(v), "variantId: \"" + VariantId(v) + "\"")
  {
    ContainsMiddle(QueryPrefix, VariantTerm(v), QuerySelection);
  }

  /** A line holds a character other than a space or a line break only if
      its text does. */
  lemma LineLacks(indent: nat, text: string, ch: char)
    requires ch != ' ' && ch != '\n' && ch !in text
    ensures ch !in Line(indent, text)
  {
  }

  /** No digit 1 occurs in the selection part of the query. */
  lemma SelectionLacksOne()
    ensures '1' !in QuerySelection
  {
    LineLacks(16, "chrom", '1');
    LineLacks(16, "pos", '1');
    LineLacks(16, "ref", '1');
    LineLacks(16, "alt", '1');
    LineLacks(16, "genome {", '1');
    LineLacks(20, "ac", '1');
    LineLacks(20, "an", '1');
    LineLacks(20, "af", '1');
    LineLacks(20, "homozygote_count", '1');
    LineLacks(16, "}", '1');
    LineLacks(16, "exome {", '1');
    LineLacks(12, "}", '1');
    LineLacks(8, "}", '1');
  }

  /** No 'c' occurs in the query before the identifier's value. */
  lemma PrefixLacksC()
    ensures 'c' !in QueryPrefix + "variantId: \""
  {
    LineLacks(8, "{", 'c');
  }

  /** For chr17 at position p, A>G, no "chr17" occurs anywhere in the query:
      every 'c' lies in the selection after the identifier, and that part
      holds no '1'. */
  lemma QueryWithoutChr17(v: Variant)
    requires v.chrom == "chr17" && v.pos >= 0 && v.ref == "A" && v.alt == "G"
    ensures !Contains(GraphqlQuery(v), "chr17")
  {
    VariantKeyExample(v, '-');
    var a := QueryPrefix + "variantId: \"" + VariantId(v);
    var b := "\"" + QuerySelection;
    assert GraphqlQuery(v) == a + b;
    PrefixLacksC();
    SelectionLacksOne();
    NotContainsAcross(a, b, "chr17", 0, 3);
  }

  /** The fields the query selects on the variant. */
  const SelectedFields: set<string> := {"chrom", "pos", "ref", "alt", "genome", "exome"}

  /** `data['data']['variant']` when both keys are there; `None` otherwise,
      including every case where Python would raise. */
  function QueryVariant(response: Option<Json>): (r: Option<Json>)
    ensures r.Some? <==>
      response.Some? && response.value.JObj? && "data" in response.value.fields &&
      response.value.fields["data"].JObj? && "variant" in response.value.fields["data"].fields
    ensures r.Some? ==> r.value == response.value.fields["data"].fields["variant"]
  {
    if response.None? then None
    else
      var data := response.value;
      if In("data", data) != Ok(true) || Index(data, "data").Err? then None
      else
        var d := Index(data, "data").value;
        if In("variant", d) != Ok(true) || Index(d, "variant").Err? then None
        else Some(Index(d, "variant").value)
  }

  /** Whether the response's variant object holds only fields the query
      selects, as a conforming GraphQL server answers. */
  predicate AnswersQuery(response: Option<Json>)
  {
    var vd := QueryVariant(response);
    vd.Some? && vd.value.JObj? ==> vd.value.fields.Keys <= SelectedFields
  }

  // ---------------------------------------------------------------------
  // annotate

  /** The dict `annotate` builds from a frequency block and the variant. */
  function Summary(freq: map<string, Json>, variant: map<string, Json>): map<string, Json>
  {
    map["allele_frequency" := Get(freq, "af"),
        "allele_count" := Get(freq, "ac"),
        "total_count" := Get(freq, "an"),
        "homozygote_count" := Get(freq, "homozygote_count"),
        "chromosome" := Get(variant, "chrom"),
        "position" := Get(variant, "pos"),
        "reference_genome" := JStr("GRCh38")]
  }

  /** `annotate` as written: `variant_data.get('genome', {})` is `None`
      when the response says `"genome": null`, and `.get('af')` on it
      raises, so no annotation results. */
  function Annotate(response: Option<Json>): (r: Option<map<string, Json>>)
  {
    var vd := QueryVariant(response);
    if vd.None? || !Truthy(vd.value) || !vd.value.JObj? then None
    else
      var genome := GetOr(vd.value.fields, "genome", JObj(map[]));
      var exome := GetOr(vd.value.fields, "exome", JObj(map[]));
      if !genome.JObj? then None
      else
        var freq := if Get(genome.fields, "af") != JNull then genome else exome;
        if !freq.JObj? then None
        else Some(Summary(freq.fields, vd.value.fields))
  }

  /** A block that is missing or `null` counts as empty. */
  function Block(variant: map<string, Json>, key: string): Json
  {
    var b := Get(variant, key);
    if b == JNull then JObj(map[]) else b
  }

  /** `annotate` as evidently intended: a `null` genome block falls back to
      the exome block like a missing one. */
  function AnnotateWithFallback(response: Option<Json>): (r: Option<map<string, Json>>)
  {
    var vd := QueryVariant(response);
    if vd.None? || !Truthy(vd.value) || !vd.value.JObj? then None
    else
      var genome := Block(vd.value.fields, "genome");
      var exome := Block(vd.value.fields, "exome");
      if !genome.JObj? then None
      else
        var freq := if Get(genome.fields, "af") != JNull then genome else exome;
        if !freq.JObj? then None
        else Some(Summary(freq.fields, vd.value.fields))
  }

  /** Which block an annotation reads: the genome block when it has an
      allele frequency, otherwise the exome block even without one; count,
      total and frequency all come from that one block, and the reference
      genome is always GRCh38. */
  lemma AnnotateSelection(response: Option<Json>)
    ensures var r := AnnotateWithFallback(response); var vd := QueryVariant(response);
      r.Some? ==>
        vd.Some? && vd.value.JObj? && vd.value.fields != map[] &&
        var genome := Block(vd.value.fields, "genome");
        var exome := Block(vd.value.fields, "exome");
        genome.JObj? &&
        var freq := if Get(genome.fields, "af") != JNull then genome else exome;
        freq.JObj? &&
        r.value["allele_frequency"] == Get(freq.fields, "af") &&
        r.value["allele_count"] == Get(freq.fields, "ac") &&
        r.value["total_count"] == Get(freq.fields, "an") &&
        r.value["reference_genome"] == JStr("GRCh38")
    ensures var r := AnnotateWithFallback(response); var vd := QueryVariant(response);
      (vd.Some? && vd.value.JObj? && vd.value.fields != map[] &&
       Block(vd.value.fields, "genome").JObj? && Block(vd.value.fields, "exome").JObj?) ==> r.Some?
  {
  }

  /** Both versions agree whenever the genome block is not `null`. */
  lemma AnnotateAgrees(response: Option<Json>)
    requires var vd := QueryVariant(response);
      vd.Some? && vd.value.JObj? ==> Get(vd.value.fields, "genome") != JNull && Get(vd.value.fields, "exome") != JNull
    ensures Annotate(response) == AnnotateWithFallback(response)
  {
  }

  /** A response for an exome-only variant: no genome data, exome AF 0.3. */
  function ExomeOnly(): Option<Json>
  {
    Some(JObj(map["data" := JObj(map["variant" := JObj(map[
      "chrom" := JStr("17"), "genome" := JNull, "exome" := JObj(map["af" := JNum(0.3)])])])]))
  }

  /** As written, the exome-only variant gets no annotation; with the
      fallback it gets the exome frequency. */
  lemma ExomeOnlyLost()
    ensures Annotate(ExomeOnly()).None?
    ensures AnnotateWithFallback(ExomeOnly()).Some?
    ensures AnnotateWithFallback(ExomeOnly()).value["allele_frequency"] == JNum(0.3)
  {
    var vd := QueryVariant(ExomeOnly());
    assert vd.Some? && vd.value.JObj?;
    assert Get(vd.value.fields, "genome") == JNull;
  }

  // ---------------------------------------------------------------------
  // Population frequencies

  /** The frequencies collected from the populations before the first
      exception: `id -> allele_frequency` for each population whose
      frequency is not `None`, a later id overwriting an earlier one. */
  function Collect(pops: seq<Json>): (r: Result<map<Json, Json>>)
  {
    if pops == [] then Ok(map[])
    else
      var prior := Collect(pops[..|pops| - 1]);
      var p := pops[|pops| - 1];
      if prior.Err? then prior
      else if Index(p, "id").Err? then Err("KeyError or TypeError")
      else
        var id := Index(p, "id").value;
        var af := Get(p.fields, "allele_frequency");
        if af == JNull then prior
        else if !Hashable(id) then Err("TypeError: unhashable type")
        else Ok(prior.value[id := af])
  }

  /** The populations list the loop walks over: `Err` when the variant has
      no truthy `populations`, or it cannot be iterated the way the loop
      needs (a dict or string yields strings, and a string cannot be
      indexed by `'id'`). */
  function PopulationList(response: Option<Json>): Result<seq<Json>>
  {
    var vd := QueryVariant(response);
    if vd.None? || !Truthy(vd.value) || In("populations", vd.value) != Ok(true) then Err("no populations")
    else if Index(vd.value, "populations").Err? then Err("TypeError")
    else
      match Index(vd.value, "populations").value
      case JArr(items) => Ok(items)
      case JObj(fields) => if fields == map[] then Ok([]) else Err("TypeError")
      case JStr(s) => if s == "" then Ok([]) else Err("TypeError")
      case _ => Err("TypeError: not iterable")
  }

  /** What `get_population_frequencies` returns: `{}` on any failure. */
  function Frequencies(response: Option<Json>): map<Json, Json>
  {
    match PopulationList(response)
    case Err(_) => map[]
    case Ok(pops) => if Collect(pops).Ok? then Collect(pops).value else map[]
  }

  /** `get_population_frequencies`, filling the dict population by population. */
  method PopulationFrequencies(response: Option<Json>) returns (frequencies: map<Json, Json>)
    ensures frequencies == Frequencies(response)
  {
    var pops := PopulationList(response);
    if pops.Err? {
      return map[];
    }
    var items := pops.value;
    frequencies := map[];
    for i := 0 to |items|
      invariant Collect(items[..i]) == Ok(frequencies)
    {
      assert items[..i + 1][..i] == items[..i];
      var p := items[i];
      var id := Index(p, "id");
      if id.Err? {
        CollectStops(items, i + 1);
        return map[];
      }
      var af := Get(p.fields, "allele_frequency");
      if af != JNull {
        if !Hashable(id.value) {
          CollectStops(items, i + 1);
          return map[];
        }
        frequencies := frequencies[id.value := af];
      }
    }
    assert items[..|items|] == items;
  }

  /** Once collection has failed, later populations change nothing. */
  lemma {:induction false} CollectStops(pops: seq<Json>, n: nat)
    requires n <= |pops| && Collect(pops[..n]).Err?
    ensures Collect(pops).Err?
    decreases |pops| - n
  {
    if n < |pops| {
      assert pops[..n + 1][..n] == pops[..n];
      CollectStops(pops, n + 1);
    } else {
      assert pops[..n] == pops;
    }
  }

  /** Every collected frequency is present, under the id of a population
      that carries it. */
  lemma {:induction false} CollectSound(pops: seq<Json>, id: Json)
    requires Collect(pops).Ok? && id in Collect(pops).value
    ensures Collect(pops).value[id] != JNull
    ensures exists j :: (0 <= j < |pops| && pops[j].JObj? && Index(pops[j], "id") == Ok(id) &&
      Get(pops[j].fields, "allele_frequency") == Collect(pops).value[id])
  {
    var init := pops[..|pops| - 1];
    var p := pops[|pops| - 1];
    if Index(p, "id") == Ok(id) && Get(p.fields, "allele_frequency") != JNull {
    } else {
      CollectSound(init, id);
      var j :| 0 <= j < |init| && init[j].JObj? && Index(init[j], "id") == Ok(id) &&
        Get(init[j].fields, "allele_frequency") == Collect(init).value[id];
      assert pops[j] == init[j];
    }
  }

  /** When collection succeeds, every population with a frequency has its
      id among the keys. */
  lemma {:induction false} CollectComplete(pops: seq<Json>, j: nat)
    requires Collect(pops).Ok? && j < |pops|
    requires pops[j].JObj? && Get(pops[j].fields, "allele_frequency") != JNull
    ensures Index(pops[j], "id").Ok? && Index(pops[j], "id").value in Collect(pops).value
  {
    var init := pops[..|pops| - 1];
    if j < |pops| - 1 {
      assert init[j] == pops[j];
      CollectComplete(init, j);
    }
  }

  /** The query never selects `populations`, so against a conforming
      response the population map is always empty. */
  lemma FrequenciesNeverQueried(response: Option<Json>)
    requires AnswersQuery(response)
    ensures Frequencies(response) == map[]
  {
    var vd := QueryVariant(response);
    if vd.Some? && vd.value.JObj? {
      assert "populations" !in SelectedFields;
    }
  }

  // ---------------------------------------------------------------------
  // Common variants

  /** The default frequency above which a variant is common. */
  const CommonThreshold: real := 0.01

  /** `af > threshold` for a dynamic `af`; a comparison that raises is
      caught and answers false. */
  predicate Above(af: Json, threshold: real)
  {
    af != JNull && AsNumber(af).Some? && AsNumber(af).value > threshold
  }

  /** `is_common_variant` as written: it reads `allele_frequency` from the
      variant object itself. */
  predicate IsCommonAsWritten(response: Option<Json>, threshold: real)
  {
    var vd := QueryVariant(response);
    vd.Some? && Truthy(vd.value) && vd.value.JObj? && Above(Get(vd.value.fields, "allele_frequency"), threshold)
  }

  /** The query never selects a top-level `allele_frequency`, so against a
      conforming response no variant is ever common. */
  lemma NeverCommonAsWritten(response: Option<Json>, threshold: real)
    requires AnswersQuery(response)
    ensures !IsCommonAsWritten(response, threshold)
  {
    assert "allele_frequency" !in SelectedFields;
  }

  /** `is_common_variant` as evidently intended: the frequency `annotate`
      reports, compared with the threshold. */
  predicate IsCommon(response: Option<Json>, threshold: real)
  {
    var r := AnnotateWithFallback(response);
    r.Some? && Above(r.value["allele_frequency"], threshold)
  }

  /** A variant is common exactly when its chosen block's frequency is a
      number above the threshold; without data it is not. */
  lemma IsCommonFacts(response: Option<Json>, threshold: real)
    ensures QueryVariant(response).None? ==> !IsCommon(response, threshold)
    ensures IsCommon(response, threshold) <==>
      AnnotateWithFallback(response).Some? &&
      var af := AnnotateWithFallback(response).value["allele_frequency"];
      AsNumber(af).Some? && AsNumber(af).value > threshold
  {
  }

  /** The exome-only variant with frequency 0.3 is common at the default
      threshold once the fallback is in place, and never as written. */
  lemma ExomeOnlyCommon()
    ensures IsCommon(ExomeOnly(), CommonThreshold)
    ensures !IsCommonAsWritten(ExomeOnly(), CommonThreshold)
  {
    ExomeOnlyLost();
    var vd := QueryVariant(ExomeOnly());
    assert vd.Some? && vd.value.JObj? && "allele_frequency" !in vd.value.fields;
  }
}
