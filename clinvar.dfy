/** The ClinVar annotator without its HTTP calls: the search query it sends,
    the variant id it takes from the search response, the details it takes
    from the summary response (with the disease names), and the dict its
    `annotate` returns. A response is `None` when the request failed and
    otherwise the decoded JSON body. */
module ClinVar {
  import opened Wrappers
  import opened Strings
  import opened Json
  import opened Models

  // ---------------------------------------------------------------------
  // The search query

  /** The query terms, in order: chromosome and position, then gene and the
      two HGVS notations when they are set. */
  function QueryParts(v: Variant, str: Json -> string): (parts: seq<string>)
    ensures 2 <= |parts| <= 5
  {
    [v.chrom + "[chr]", IntToString(v.pos) + "[pos]"]
    + (if Truthy(v.gene) then [Text(v.gene, str) + "[gene]"] else [])
    + (if Truthy(v.hgvsC) then ["\"" + Text(v.hgvsC, str) + "\"[hgvs]"] else [])
    + (if Truthy(v.hgvsP) then ["\"" + Text(v.hgvsP, str) + "\"[hgvs]"] else [])
  }

  /** `_build_search_query` as written: the chromosome goes in as it is. */
  method BuildSearchQuery(v: Variant, str: Json -> string) returns (query: string)
    ensures query == Join(" AND ", QueryParts(v, str))
  {
    var parts := [v.chrom + "[chr]", IntToString(v.pos) + "[pos]"];
    ghost var gene := if Truthy(v.gene) then [Text(v.gene, str) + "[gene]"] else [];
    ghost var hgvsC := if Truthy(v.hgvsC) then ["\"" + Text(v.hgvsC, str) + "\"[hgvs]"] else [];
    ghost var hgvsP := if Truthy(v.hgvsP) then ["\"" + Text(v.hgvsP, str) + "\"[hgvs]"] else [];
    if Truthy(v.gene) {
      parts := parts + [Text(v.gene, str) + "[gene]"];
    }
    assert parts == [v.chrom + "[chr]", IntToString(v.pos) + "[pos]"] + gene;
    if Truthy(v.hgvsC) {
      parts := parts + ["\"" + Text(v.hgvsC, str) + "\"[hgvs]"];
    }
    assert parts == [v.chrom + "[chr]", IntToString(v.pos) + "[pos]"] + gene + hgvsC;
    if Truthy(v.hgvsP) {
      parts := parts + ["\"" + Text(v.hgvsP, str) + "\"[hgvs]"];
    }
    assert parts == [v.chrom + "[chr]", IntToString(v.pos) + "[pos]"] + gene + hgvsC + hgvsP;
    query := Join(" AND ", parts);
  }

  /** The number of optional terms that are set. */
  function SetCount(v: Variant): nat
  {
    (if Truthy(v.gene) then 1 else 0) + (if Truthy(v.hgvsC) then 1 else 0) + (if Truthy(v.hgvsP) then 1 else 0)
  }

  /** The query starts with the chromosome term, has one term per field that
      is set, and mentions the gene and both HGVS notations when they are set. */
  lemma QueryShape(v: Variant, str: Json -> string)
    ensures var parts := QueryParts(v, str);
      |parts| == 2 + SetCount(v) && parts[0] == v.chrom + "[chr]" && parts[1] == IntToString(v.pos) + "[pos]"
    ensures StartsWith(Join(" AND ", QueryParts(v, str)), v.chrom + "[chr]")
    ensures Truthy(v.gene) ==> Contains(Join(" AND ", QueryParts(v, str)), Text(v.gene, str) + "[gene]")
    ensures Truthy(v.hgvsC) ==> Contains(Join(" AND ", QueryParts(v, str)), "\"" + Text(v.hgvsC, str) + "\"[hgvs]")
    ensures Truthy(v.hgvsP) ==> Contains(Join(" AND ", QueryParts(v, str)), "\"" + Text(v.hgvsP, str) + "\"[hgvs]")
  {
    var parts := QueryParts(v, str);
    JoinStartsWith(" AND ", parts);
    if Truthy(v.gene) {
      JoinContains(" AND ", parts, 2);
    }
    if Truthy(v.hgvsC) {
      JoinContains(" AND ", parts, if Truthy(v.gene) then 3 else 2);
    }
    if Truthy(v.hgvsP) {
      JoinContains(" AND ", parts, |parts| - 1);
    }
  }

  /** As written, a "chr"-prefixed chromosome stays in the query. */
  lemma QueryKeepsChrPrefix(v: Variant, str: Json -> string)
    requires v.chrom == "chr17"
    ensures Contains(Join(" AND ", QueryParts(v, str)), "chr17")
  {
    var q := Join(" AND ", QueryParts(v, str));
    QueryShape(v, str);
    assert q[..|v.chrom + "[chr]"|] == v.chrom + "[chr]";
    assert q[0..5] == "chr17";
    ContainsAt(q, "chr17", 0);
  }

  /** The query terms with the chromosome normalised as for the other
      sources: one leading "chr" removed. */
  function NormalizedQueryParts(v: Variant, str: Json -> string): (parts: seq<string>)
    ensures 2 <= |parts| <= 5
  {
    QueryParts(v.(chrom := StripChr(v.chrom)), str)
  }

  /** The query the chromosome normalisation evidently intended. */
  method BuildNormalizedSearchQuery(v: Variant, str: Json -> string) returns (query: string)
    ensures query == Join(" AND ", NormalizedQueryParts(v, str))
  {
    var chrom := v.chrom;
    if StartsWith(chrom, "chr") {
      chrom := chrom[3..];
    }
    query := BuildSearchQuery(v.(chrom := chrom), str);
  }

  /** The normalised query starts with the chromosome without its "chr"
      prefix; for chr17 at 7577120 with nothing else set it is exactly
      "17[chr] AND 7577120[pos]", which mentions "17[chr]" and not "chr17". */
  lemma NormalizedQueryExample(v: Variant, str: Json -> string)
    requires v.chrom == "chr17" && v.pos == 7577120
    requires !Truthy(v.gene) && !Truthy(v.hgvsC) && !Truthy(v.hgvsP)
    ensures Join(" AND ", NormalizedQueryParts(v, str)) == "17[chr] AND 7577120[pos]"
    ensures Contains(Join(" AND ", NormalizedQueryParts(v, str)), "17[chr]")
    ensures !Contains(Join(" AND ", NormalizedQueryParts(v, str)), "chr17")
  {
    NormalizedExampleText(v, str);
    ExampleQueryText();
    var q := Join(" AND ", NormalizedQueryParts(v, str));
    ContainsAt(q, "17[chr]", 0);
    NoChr17(q);
  }

  /** Helper of `NormalizedQueryExample`: the two terms of the example query. */
  lemma NormalizedExampleText(v: Variant, str: Json -> string)
    requires v.chrom == "chr17" && v.pos == 7577120
    requires !Truthy(v.gene) && !Truthy(v.hgvsC) && !Truthy(v.hgvsP)
    ensures Join(" AND ", NormalizedQueryParts(v, str)) == "17[chr]" + " AND " + "7577120[pos]"
  {
    assert StartsWith(v.chrom, "chr");
    var w := v.(chrom := "17");
    var a := "17" + "[chr]";
    var b := IntToString(7577120) + "[pos]";
    assert NormalizedQueryParts(v, str) == QueryParts(w, str) == [a, b] + [] + [] + [];
    assert [a, b] + [] + [] + [] == [a, b];
    JoinPair(" AND ", a, b);
    ExamplePosition();
  }

  /** Helper of `NormalizedQueryExample`: the example's terms joined. */
  lemma ExampleQueryText()
    ensures "17[chr]" + " AND " + "7577120[pos]" == "17[chr] AND 7577120[pos]"
  {
  }

  /** Helper of `NormalizedQueryExample`: the example position as text. */
  lemma ExamplePosition()
    ensures IntToString(7577120) == "7577120"
  {
  }

  /** Helper of `NormalizedQueryExample`: "chr17" does not occur in the
      example query. It is a fact about that one text only. */
  lemma NoChr17(q: string)
    requires q == "17[chr] AND 7577120[pos]"
    ensures !Contains(q, "chr17")
  {
    if Contains(q, "chr17") {
      var i := ContainsWhere(q, "chr17");
      NotChr17At(q, i);
      assert false;
    }
  }

  /** Helper of `NoChr17`: the only 'c' of the example query is followed by
      "hr]", not "hr1". */
  lemma NotChr17At(q: string, i: nat)
    requires q == "17[chr] AND 7577120[pos]" && i + 5 <= |q|
    ensures q[i..i + 5] != "chr17"
  {
    if i == 3 {
      assert q[i..i + 5][3] == q[6] == ']';
    } else {
      assert q[i..i + 5][0] == q[i] != 'c';
    }
  }

  // ---------------------------------------------------------------------
  // The search response

  /** The id `_search_variant` returns: `idlist[0]` when the response has an
      `esearchresult` holding a non-empty `idlist`; `None` otherwise,
      including every case where Python would raise. */
  function SearchId(response: Option<Json>): (id: Option<Json>)
    ensures id.Some? ==>
      response.Some? && response.value.JObj? && "esearchresult" in response.value.fields &&
      var e := response.value.fields["esearchresult"];
      e.JObj? && "idlist" in e.fields && Head(e.fields["idlist"]) == Ok(id.value)
    ensures response.Some? && response.value.JObj? && "esearchresult" in response.value.fields ==>
      var e := response.value.fields["esearchresult"];
      e.JObj? && "idlist" in e.fields && e.fields["idlist"].JArr? && |e.fields["idlist"].items| > 0 ==>
        id == Some(e.fields["idlist"].items[0])
  {
    if response.None? then None
    else
      var data := response.value;
      if In("esearchresult", data) != Ok(true) || Index(data, "esearchresult").Err? then None
      else
        var e := Index(data, "esearchresult").value;
        if In("idlist", e) != Ok(true) || Index(e, "idlist").Err? then None
        else
          var ids := Index(e, "idlist").value;
          if Truthy(ids) && Head(ids).Ok? then Some(Head(ids).value) else None
  }

  // ---------------------------------------------------------------------
  // Disease names

  /** What one element of `phenotype_ids` or `trait_set` contributes:
      `Ok(Some(name))` when `key in item` holds and `item[key]` succeeds,
      `Ok(None)` when the key is absent, `Err` when either step raises. */
  function Pick(item: Json, key: string): (r: Result<Option<Json>>)
    ensures r.Ok? && r.value.Some? <==> item.JObj? && key in item.fields
    ensures r.Ok? && r.value.Some? ==> r.value.value == item.fields[key]
  {
    match In(key, item)
    case Err(e) => Err(e)
    case Ok(found) =>
      if !found then Ok(None)
      else
        match Index(item, key)
        case Ok(x) => Ok(Some(x))
        case Err(e) => Err(e)
  }

  /** The names picked from `items` before the first exception, and whether
      every element was handled without one. */
  function Harvest(items: seq<Json>, key: string): (h: (seq<Json>, bool))
    ensures |h.0| <= |items|
  {
    if items == [] then ([], true)
    else
      var prior := Harvest(items[..|items| - 1], key);
      if !prior.1 then prior
      else
        match Pick(items[|items| - 1], key)
        case Err(_) => (prior.0, false)
        case Ok(None) => prior
        case Ok(Some(x)) => (prior.0 + [x], true)
  }

  /** The elements `for x in s` visits on a string: its characters. */
  function Chars(s: string): (cs: seq<Json>)
    ensures |cs| == |s|
  {
    seq(|s|, i requires 0 <= i < |s| => JStr([s[i]]))
  }

  /** One of the two loops of `_extract_diseases` over a container: a list
      visits its items and a string its characters; a dict visits its keys,
      each a string that cannot be indexed by a string, so it raises as soon
      as a key contains `key` and otherwise picks nothing, whatever the
      order; anything else cannot be iterated. */
  function Walk(container: Json, key: string): (seq<Json>, bool)
  {
    match container
    case JArr(items) => Harvest(items, key)
    case JStr(s) => Harvest(Chars(s), key)
    case JObj(fields) => ([], forall k :: k in fields ==> !Contains(k, key))
    case _ => ([], false)
  }

  /** The list `_extract_diseases` has built when its `try` block ends:
      disease names from `phenotype_ids`, then trait names from `trait_set`,
      cut short by the first exception. */
  function Collected(details: map<string, Json>): seq<Json>
  {
    var first := if "phenotype_ids" in details then Walk(details["phenotype_ids"], "disease_name") else ([], true);
    if !first.1 then first.0
    else
      var second := if "trait_set" in details then Walk(details["trait_set"], "trait_name") else ([], true);
      first.0 + second.0
  }

  /** Whether a sequence lists no value twice. */
  predicate NoDuplicates<T(==)>(xs: seq<T>)
  {
    forall i, j :: 0 <= i < j < |xs| ==> xs[i] != xs[j]
  }

  /** The loop over one container, step by step. */
  method WalkLoop(container: Json, key: string) returns (names: seq<Json>, ok: bool)
    ensures (names, ok) == Walk(container, key)
  {
    match container {
      case JObj(fields) =>
        names, ok := [], true;
        var rest := fields.Keys;
        while rest != {}
          invariant rest <= fields.Keys
          invariant ok <==> forall k :: k in fields.Keys - rest ==> !Contains(k, key)
          decreases rest
        {
          var k :| k in rest;
          if Contains(k, key) {
            ok := false;
            return;
          }
          rest := rest - {k};
        }
        assert fields.Keys - rest == fields.Keys;
      case JArr(items) =>
        names, ok := HarvestLoop(items, key);
      case JStr(s) =>
        names, ok := HarvestLoop(Chars(s), key);
      case _ =>
        names, ok := [], false;
    }
  }

  /** A `for` loop over elements that stops at the first exception. */
  method HarvestLoop(items: seq<Json>, key: string) returns (names: seq<Json>, ok: bool)
    ensures (names, ok) == Harvest(items, key)
  {
    names, ok := [], true;
    var i := 0;
    while i < |items|
      invariant i <= |items|
      invariant (names, ok) == Harvest(items[..i], key)
      invariant ok
    {
      assert items[..i + 1][..i] == items[..i];
      var picked := Pick(items[i], key);
      if picked.Err? {
        ok := false;
        assert items[..i + 1] == items[..i + 1];
        HarvestStops(items, key, i + 1);
        return;
      }
      if picked.value.Some? {
        names := names + [picked.value.value];
      }
      i := i + 1;
    }
    assert items[..i] == items;
  }

  /** Once the harvest has stopped, later elements change nothing. */
  lemma {:induction false} HarvestStops(items: seq<Json>, key: string, n: nat)
    requires n <= |items| && !Harvest(items[..n], key).1
    ensures Harvest(items, key) == Harvest(items[..n], key)
    decreases |items| - n
  {
    if n < |items| {
      assert items[..n + 1][..n] == items[..n];
      HarvestStops(items, key, n + 1);
    } else {
      assert items[..n] == items;
    }
  }

  /** `list(set(diseases))`: each value once. Python's set order depends on
      hashing; this keeps first occurrences in order. */
  method Dedupe(xs: seq<Json>) returns (ys: seq<Json>)
    ensures NoDuplicates(ys)
    ensures forall x :: x in ys <==> x in xs
  {
    ys := [];
    for i := 0 to |xs|
      invariant NoDuplicates(ys)
      invariant forall x :: x in ys <==> x in xs[..i]
    {
      assert xs[..i + 1] == xs[..i] + [xs[i]];
      if xs[i] !in ys {
        ys := ys + [xs[i]];
      }
    }
    assert xs[..|xs|] == xs;
  }

  /** `_extract_diseases`: the collected names without duplicates; `Err`
      when a name is a list or dict, which `set()` cannot hash (that
      exception is outside the `try`). */
  method ExtractDiseases(details: map<string, Json>) returns (r: Result<seq<Json>>)
    ensures r.Err? <==> exists x :: x in Collected(details) && !Hashable(x)
    ensures r.Ok? ==> NoDuplicates(r.value)
    ensures r.Ok? ==> forall x :: x in r.value <==> x in Collected(details)
  {
    var diseases: seq<Json> := [];
    var ok := true;
    if "phenotype_ids" in details {
      diseases, ok := WalkLoop(details["phenotype_ids"], "disease_name");
    }
    if ok && "trait_set" in details {
      var more;
      more, ok := WalkLoop(details["trait_set"], "trait_name");
      diseases := diseases + more;
    }
    assert diseases == Collected(details);
    if exists x :: x in diseases && !Hashable(x) {
      return Err("TypeError: unhashable type");
    }
    var unique := Dedupe(diseases);
    r := Ok(unique);
  }

  /** Every harvested name is the `key` entry of a dict among the items. */
  lemma {:induction false} HarvestSound(items: seq<Json>, key: string, x: Json)
    requires x in Harvest(items, key).0
    ensures exists j :: 0 <= j < |items| && items[j].JObj? && key in items[j].fields && items[j].fields[key] == x
  {
    if items != [] {
      var init := items[..|items| - 1];
      var prior := Harvest(init, key);
      if x in prior.0 {
        HarvestSound(init, key, x);
        var j :| 0 <= j < |init| && init[j].JObj? && key in init[j].fields && init[j].fields[key] == x;
        assert items[j] == init[j];
      } else {
        assert items[|items| - 1].JObj? && key in items[|items| - 1].fields;
      }
    }
  }

  /** When every item is a dict, nothing raises and every item that has the
      key contributes its value. */
  lemma {:induction false} HarvestComplete(items: seq<Json>, key: string, j: nat)
    requires forall i :: 0 <= i < |items| ==> items[i].JObj?
    requires j < |items| && key in items[j].fields
    ensures Harvest(items, key).1
    ensures items[j].fields[key] in Harvest(items, key).0
  {
    HarvestOfDicts(items, key);
    var init := items[..|items| - 1];
    if j < |items| - 1 {
      HarvestComplete(init, key, j);
    }
  }

  /** A harvest over dicts never stops early. */
  lemma {:induction false} HarvestOfDicts(items: seq<Json>, key: string)
    requires forall i :: 0 <= i < |items| ==> items[i].JObj?
    ensures Harvest(items, key).1
  {
    if items != [] {
      HarvestOfDicts(items[..|items| - 1], key);
    }
  }

  /** Every disease name comes from a `disease_name` among the phenotypes or
      a `trait_name` among the traits. */
  lemma CollectedSound(details: map<string, Json>, x: Json)
    requires x in Collected(details)
    ensures
      ("phenotype_ids" in details && details["phenotype_ids"].JArr? &&
       exists j :: 0 <= j < |details["phenotype_ids"].items| &&
         var p := details["phenotype_ids"].items[j]; p.JObj? && "disease_name" in p.fields && p.fields["disease_name"] == x) ||
      ("trait_set" in details && details["trait_set"].JArr? &&
       exists j :: 0 <= j < |details["trait_set"].items| &&
         var t := details["trait_set"].items[j]; t.JObj? && "trait_name" in t.fields && t.fields["trait_name"] == x)
  {
    var first := if "phenotype_ids" in details then Walk(details["phenotype_ids"], "disease_name") else ([], true);
    var second := if "trait_set" in details then Walk(details["trait_set"], "trait_name") else ([], true);
    if x in first.0 {
      WalkSound(details["phenotype_ids"], "disease_name", x);
    } else {
      assert x in second.0;
      WalkSound(details["trait_set"], "trait_name", x);
    }
  }

  /** Only a list's dict items contribute names. */
  lemma WalkSound(container: Json, key: string, x: Json)
    requires x in Walk(container, key).0
    ensures container.JArr?
    ensures exists j :: (0 <= j < |container.items| &&
      container.items[j].JObj? && key in container.items[j].fields && container.items[j].fields[key] == x)
  {
    match container
    case JArr(items) => HarvestSound(items, key, x);
    case JStr(s) =>
      HarvestSound(Chars(s), key, x);
      assert false;
  }

  /** With both lists made of dicts, every phenotype's `disease_name` and
      every trait's `trait_name` is among the disease names. */
  lemma CollectedComplete(details: map<string, Json>, key: string, j: nat)
    requires "phenotype_ids" in details ==> (details["phenotype_ids"].JArr? &&
      forall i :: 0 <= i < |details["phenotype_ids"].items| ==> details["phenotype_ids"].items[i].JObj?)
    requires "trait_set" in details ==> (details["trait_set"].JArr? &&
      forall i :: 0 <= i < |details["trait_set"].items| ==> details["trait_set"].items[i].JObj?)
    requires key == "phenotype_ids" || key == "trait_set"
    requires key in details && j < |details[key].items|
    requires var name := if key == "phenotype_ids" then "disease_name" else "trait_name";
      name in details[key].items[j].fields
    ensures var name := if key == "phenotype_ids" then "disease_name" else "trait_name";
      details[key].items[j].fields[name] in Collected(details)
  {
    if "phenotype_ids" in details {
      HarvestOfDicts(details["phenotype_ids"].items, "disease_name");
    }
    if key == "phenotype_ids" {
      HarvestComplete(details[key].items, "disease_name", j);
    } else {
      HarvestComplete(details[key].items, "trait_name", j);
    }
  }

  // ---------------------------------------------------------------------
  // Details and annotate

  /** The dict `_get_variant_details` returns, or `None` when the summary
      lacks the id, the entry is not a dict, or the disease names cannot be
      hashed. Only a string id can be found in the `result` dict. */
  function Details(id: Json, response: Option<Json>): (d: Option<map<string, Json>>)
    ensures d.Some? ==>
      id.JStr? && response.Some? && response.value.JObj? && "result" in response.value.fields &&
      var result := response.value.fields["result"];
      result.JObj? && id.s in result.fields && result.fields[id.s].JObj? &&
      d.value.Keys == {"clinical_significance", "diseases", "review_status", "last_evaluated"} &&
      d.value["clinical_significance"] == Get(result.fields[id.s].fields, "clinical_significance") &&
      Diseases(result.fields[id.s].fields).Ok? &&
      d.value["diseases"] == JArr(Diseases(result.fields[id.s].fields).value)
  {
    if !id.JStr? || response.None? then None
    else
      var data := response.value;
      if In("result", data) != Ok(true) || Index(data, "result").Err? then None
      else
        var result := Index(data, "result").value;
        if In(id.s, result) != Ok(true) || Index(result, id.s).Err? then None
        else
          var entry := Index(result, id.s).value;
          if !entry.JObj? || Diseases(entry.fields).Err? then None
          else
            var e := entry.fields;
            Some(map["clinical_significance" := Get(e, "clinical_significance"),
                     "diseases" := JArr(Diseases(e).value),
                     "review_status" := Get(e, "review_status"),
                     "last_evaluated" := Get(e, "last_evaluated")])
  }

  /** The disease list as a value: `Err` when a name cannot be hashed,
      otherwise the collected names, each once, in first-occurrence order. */
  function Diseases(details: map<string, Json>): (r: Result<seq<Json>>)
    ensures r.Err? <==> exists x :: x in Collected(details) && !Hashable(x)
    ensures r.Ok? ==> NoDuplicates(r.value) && forall x :: x in r.value <==> x in Collected(details)
  {
    var xs := Collected(details);
    if exists x :: x in xs && !Hashable(x) then Err("TypeError: unhashable type")
    else Ok(Unique(xs))
  }

  /** The values of `xs`, each once, in first-occurrence order. */
  function Unique(xs: seq<Json>): (ys: seq<Json>)
    ensures NoDuplicates(ys)
    ensures forall x :: x in ys <==> x in xs
  {
    if xs == [] then []
    else
      var init := Unique(xs[..|xs| - 1]);
      var last := xs[|xs| - 1];
      assert xs == xs[..|xs| - 1] + [last];
      if last in init then init else init + [last]
  }

  /** ClinVar's `annotate`: `None` when no truthy id is found or its details
      are missing; otherwise the details with the id added. */
  function Annotate(search: Option<Json>, summary: Option<Json>): (r: Option<map<string, Json>>)
  {
    var id := SearchId(search);
    if id.None? || !Truthy(id.value) then None
    else
      match Details(id.value, summary)
      case None => None
      case Some(d) =>
        Some(map["clinical_significance" := Get(d, "clinical_significance"),
                 "diseases" := GetOr(d, "diseases", JArr([])),
                 "review_status" := Get(d, "review_status"),
                 "last_evaluated" := Get(d, "last_evaluated"),
                 "variant_id" := id.value])
  }

  /** An annotation exists exactly when the search found a truthy id whose
      details exist; it then carries that id and the details' significance
      and duplicate-free disease list, so the engine always takes it. */
  lemma AnnotateFacts(search: Option<Json>, summary: Option<Json>)
    ensures var r := Annotate(search, summary); var id := SearchId(search);
      r.Some? <==> id.Some? && Truthy(id.value) && Details(id.value, summary).Some?
    ensures var r := Annotate(search, summary); var id := SearchId(search);
      r.Some? ==>
        "variant_id" in r.value && r.value["variant_id"] == id.value &&
        r.value["clinical_significance"] == Details(id.value, summary).value["clinical_significance"] &&
        r.value["diseases"].JArr? && NoDuplicates(r.value["diseases"].items)
  {
  }
}
