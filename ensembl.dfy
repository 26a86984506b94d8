/** The Ensembl annotator without its HTTP calls: the VEP identifier it asks
    for, the first result it keeps from the response and the annotation it
    extracts from that result. A response is `None` when the request failed
    and otherwise the decoded JSON body. */
module Ensembl {
  import opened Wrappers
  import opened Strings
  import opened Json
  import opened Models

  /** `_build_variant_id`: `{chrom}:{pos}:{ref}:{alt}` with one leading
      "chr" removed. */
  function VariantId(v: Variant): string
  {
    VariantKey(v, ':')
  }

  /** `_get_variant_consequences` after the request: the first element of a
      non-empty result. Indexing anything but a list or a string raises,
      which the method turns into `None`. */
  function FirstConsequence(response: Option<Json>): (r: Option<Json>)
    ensures r.Some? <==> (response.Some? &&
      ((response.value.JArr? && response.value.items != []) || (response.value.JStr? && response.value.s != [])))
    ensures r.Some? && response.value.JArr? ==> r.value == response.value.items[0]
  {
    if response.None? || !Truthy(response.value) || Head(response.value).Err? then None
    else Some(Head(response.value).value)
  }

  /** The keys copied only when the transcript has them, each paired with
      the transcript key it is read from, in the order they are stored. */
  const OptionalKeys: seq<(string, string)> := [
    ("hgvs_c", "hgvs"), ("hgvs_p", "hgvsp"),
    ("protein_start", "protein_start"), ("protein_end", "protein_end"),
    ("cdna_start", "cdna_start"), ("cdna_end", "cdna_end")]

  /** The keys every transcript contributes. */
  const TranscriptKeys: set<string> := {"gene_name", "transcript_id", "gene_id", "consequence_terms", "impact", "biotype"}

  /** The six keys every transcript contributes, `consequence_terms`
      defaulting to `[]`. */
  function BaseData(t: map<string, Json>): map<string, Json>
  {
    map["gene_name" := Get(t, "gene_symbol"),
        "transcript_id" := Get(t, "transcript_id"),
        "gene_id" := Get(t, "gene_id"),
        "consequence_terms" := GetOr(t, "consequence_terms", JArr([])),
        "impact" := Get(t, "impact"),
        "biotype" := Get(t, "biotype")]
  }

  /** `m` with each `(key, source)` of `pairs` stored in turn when `source`
      is a key of `t`. */
  function CopyPresent(m: map<string, Json>, t: map<string, Json>, pairs: seq<(string, string)>): map<string, Json>
    decreases |pairs|
  {
    if pairs == [] then m
    else
      var m' := if pairs[0].1 in t then m[pairs[0].0 := t[pairs[0].1]] else m;
      CopyPresent(m', t, pairs[1..])
  }

  /** A key no pair stores is left as it was. */
  lemma {:induction false} CopyPresentOther(m: map<string, Json>, t: map<string, Json>, pairs: seq<(string, string)>, key: string)
    requires forall i :: 0 <= i < |pairs| ==> pairs[i].0 != key
    ensures key in CopyPresent(m, t, pairs) <==> key in m
    ensures key in m ==> CopyPresent(m, t, pairs)[key] == m[key]
    decreases |pairs|
  {
    if pairs != [] {
      assert pairs[0].0 != key;
      CopyPresentOther(if pairs[0].1 in t then m[pairs[0].0 := t[pairs[0].1]] else m, t, pairs[1..], key);
    }
  }

  /** When the stored keys are distinct, each one is present exactly when
      it was already or its source is, and then holds the source's value. */
  lemma {:induction false} CopyPresentAt(m: map<string, Json>, t: map<string, Json>, pairs: seq<(string, string)>, i: nat)
    requires i < |pairs|
    requires forall j, k :: 0 <= j < k < |pairs| ==> pairs[j].0 != pairs[k].0
    ensures pairs[i].0 in CopyPresent(m, t, pairs) <==> pairs[i].0 in m || pairs[i].1 in t
    ensures pairs[i].1 in t ==> CopyPresent(m, t, pairs)[pairs[i].0] == t[pairs[i].1]
    ensures pairs[i].1 !in t && pairs[i].0 in m ==> CopyPresent(m, t, pairs)[pairs[i].0] == m[pairs[i].0]
    decreases |pairs|
  {
    var m' := if pairs[0].1 in t then m[pairs[0].0 := t[pairs[0].1]] else m;
    if i == 0 {
      forall j | 0 <= j < |pairs[1..]| ensures pairs[1..][j].0 != pairs[0].0 {
        assert pairs[1..][j] == pairs[j + 1];
      }
      CopyPresentOther(m', t, pairs[1..], pairs[0].0);
    } else {
      assert pairs[1..][i - 1] == pairs[i];
      assert pairs[0].0 != pairs[i].0;
      CopyPresentAt(m', t, pairs[1..], i - 1);
    }
  }

  /** What one transcript consequence contributes: six keys always, the
      optional ones when the transcript has their source key. */
  function TranscriptData(t: map<string, Json>): map<string, Json>
  {
    CopyPresent(BaseData(t), t, OptionalKeys)
  }

  /** What `_extract_annotation_data` returns. A result that is not a dict,
      or a first transcript consequence that is not one, raises before
      anything is stored, and the handler returns the empty dict. */
  function AnnotationData(consequences: Json): map<string, Json>
  {
    if !consequences.JObj? then map[]
    else
      var tc := GetOr(consequences.fields, "transcript_consequences", JArr([]));
      if Truthy(tc) && !(Head(tc).Ok? && Head(tc).value.JObj?) then map[]
      else
        var fromTranscript := if Truthy(tc) then TranscriptData(Head(tc).value.fields) else map[];
        var regulatory := GetOr(consequences.fields, "regulatory_consequences", JArr([]));
        if Truthy(regulatory) then fromTranscript["regulatory_consequences" := regulatory]
        else fromTranscript
  }

  /** The transcript step of `_extract_annotation_data`: the six base
      keys, then each optional key whose source key is present. */
  method ExtractTranscriptData(transcript: map<string, Json>) returns (data: map<string, Json>)
    ensures data == TranscriptData(transcript)
  {
    data := BaseData(transcript);
    ghost var before := data;
    ghost var rest := OptionalKeys;
    assert CopyPresent(data, transcript, rest) == TranscriptData(transcript);
    if "hgvs" in transcript {
      data := data["hgvs_c" := transcript["hgvs"]];
    }
    assert CopyPresent(before, transcript, rest) == CopyPresent(data, transcript, rest[1..]);
    rest := rest[1..];
    before := data;
    if "hgvsp" in transcript {
      data := data["hgvs_p" := transcript["hgvsp"]];
    }
    assert CopyPresent(before, transcript, rest) == CopyPresent(data, transcript, rest[1..]);
    rest := rest[1..];
    before := data;
    if "protein_start" in transcript {
      data := data["protein_start" := transcript["protein_start"]];
    }
    assert CopyPresent(before, transcript, rest) == CopyPresent(data, transcript, rest[1..]);
    rest := rest[1..];
    before := data;
    if "protein_end" in transcript {
      data := data["protein_end" := transcript["protein_end"]];
    }
    assert CopyPresent(before, transcript, rest) == CopyPresent(data, transcript, rest[1..]);
    rest := rest[1..];
    before := data;
    if "cdna_start" in transcript {
      data := data["cdna_start" := transcript["cdna_start"]];
    }
    assert CopyPresent(before, transcript, rest) == CopyPresent(data, transcript, rest[1..]);
    rest := rest[1..];
    before := data;
    if "cdna_end" in transcript {
      data := data["cdna_end" := transcript["cdna_end"]];
    }
    assert CopyPresent(before, transcript, rest) == CopyPresent(data, transcript, rest[1..]);
    rest := rest[1..];
    assert rest == [];
  }

  /** `_extract_annotation_data`, storing key after key. */
  method ExtractAnnotationData(consequences: Json) returns (annotationData: map<string, Json>)
    ensures annotationData == AnnotationData(consequences)
  {
    annotationData := map[];
    if !consequences.JObj? {
      return;
    }
    var transcriptConsequences := GetOr(consequences.fields, "transcript_consequences", JArr([]));
    if Truthy(transcriptConsequences) {
      var first := Head(transcriptConsequences);
      if first.Err? || !first.value.JObj? {
        return;
      }
      var transcript := first.value.fields;
      var fromTranscript := ExtractTranscriptData(transcript);
      annotationData := annotationData + fromTranscript;
      assert annotationData == TranscriptData(transcript);
    }
    var regulatory := GetOr(consequences.fields, "regulatory_consequences", JArr([]));
    if Truthy(regulatory) {
      annotationData := annotationData["regulatory_consequences" := regulatory];
    }
  }

  /** `annotate`: no annotation when there is no first result or it is
      empty; otherwise what is extracted from it. */
  function Annotate(response: Option<Json>): (r: Option<map<string, Json>>)
    ensures r.Some? <==> FirstConsequence(response).Some? && Truthy(FirstConsequence(response).value)
  {
    var consequences := FirstConsequence(response);
    if consequences.None? || !Truthy(consequences.value) then None
    else Some(AnnotationData(consequences.value))
  }

  /** The six base fields of the first transcript consequence are copied:
      an absent one stays `None`, `consequence_terms` defaults to `[]`. */
  lemma TranscriptFields(t: map<string, Json>)
    ensures TranscriptKeys <= TranscriptData(t).Keys
    ensures var r := TranscriptData(t);
      r["gene_name"] == Get(t, "gene_symbol") &&
      r["transcript_id"] == Get(t, "transcript_id") &&
      r["gene_id"] == Get(t, "gene_id") &&
      r["consequence_terms"] == GetOr(t, "consequence_terms", JArr([])) &&
      r["impact"] == Get(t, "impact") &&
      r["biotype"] == Get(t, "biotype")
  {
    var b := BaseData(t);
    forall key | key in TranscriptKeys
      ensures key in TranscriptData(t) && TranscriptData(t)[key] == b[key]
    {
      CopyPresentOther(b, t, OptionalKeys, key);
    }
  }

  /** Each optional key is present exactly when the transcript has its
      source key, and then holds that value. */
  lemma TranscriptOptional(t: map<string, Json>, i: nat)
    requires i < |OptionalKeys|
    ensures OptionalKeys[i].0 in TranscriptData(t) <==> OptionalKeys[i].1 in t
    ensures OptionalKeys[i].1 in t ==> TranscriptData(t)[OptionalKeys[i].0] == t[OptionalKeys[i].1]
  {
    assert OptionalKeys[i].0 !in BaseData(t);
    CopyPresentAt(BaseData(t), t, OptionalKeys, i);
  }

  /** `regulatory_consequences` is stored exactly when it is non-empty and
      the transcript step did not raise; a first transcript consequence
      that is not a dict leaves nothing at all, and without transcript
      consequences no transcript key is stored. */
  lemma RegulatoryFacts(consequences: Json)
    requires consequences.JObj?
    ensures var tc := GetOr(consequences.fields, "transcript_consequences", JArr([]));
      var regulatory := GetOr(consequences.fields, "regulatory_consequences", JArr([]));
      var r := AnnotationData(consequences);
      var raised := Truthy(tc) && !(Head(tc).Ok? && Head(tc).value.JObj?);
      (raised ==> r == map[]) &&
      ("regulatory_consequences" in r <==> !raised && Truthy(regulatory)) &&
      ("regulatory_consequences" in r ==> r["regulatory_consequences"] == regulatory)
    ensures var tc := GetOr(consequences.fields, "transcript_consequences", JArr([]));
      !Truthy(tc) ==> AnnotationData(consequences).Keys <= {"regulatory_consequences"}
  {
  }
}
