/** The JSON shapes the client sends to the signing endpoint: the
    `to_dict` methods of `Fit`, `ApiOutput` and `ApiTransformOptions`,
    and decoders that read those shapes back, so that each encoding is
    shown to lose nothing. */
module Wire {
  import opened Common

  /** A JSON value. Objects keep their keys in insertion order, as a
      Python dict does. */
  datatype Json =
    | JNull
    | JBool(b: bool)
    | JInt(i: int)
    | JStr(s: string)
    | JArr(items: seq<Json>)
    | JObj(fields: seq<(string, Json)>)

  /** `d[key]` on a dict's entries: the first entry with that key. */
  function Lookup<V>(fields: seq<(string, V)>, key: string): (r: Option<V>)
    ensures r.Some? ==> exists i :: 0 <= i < |fields| && fields[i] == (key, r.value)
    ensures r.None? ==> forall i :: 0 <= i < |fields| ==> fields[i].0 != key
  {
    if fields == [] then None
    else if fields[0].0 == key then Some(fields[0].1)
    else Lookup(fields[1..], key)
  }

  /** A key's first occurrence decides what `Lookup` returns. */
  lemma {:induction false} LookupFirst<V>(fields: seq<(string, V)>, i: nat)
    requires i < |fields|
    requires forall j :: 0 <= j < i ==> fields[j].0 != fields[i].0
    ensures Lookup(fields, fields[i].0) == Some(fields[i].1)
    decreases i
  {
    if i > 0 {
      LookupFirst(fields[1..], i - 1);
    }
  }

  function Field(j: Json, key: string): Option<Json>
  {
    if j.JObj? then Lookup(j.fields, key) else None
  }

  // ---------------------------------------------------------------- Fit

  /** Target size of one output and whether enlarging is allowed. */
  datatype Fit = Fit(width: int, height: int, upscale: bool)

  function FitToDict(f: Fit): Json
  {
    JObj([("width", JInt(f.width)), ("height", JInt(f.height)), ("upscale", JBool(f.upscale))])
  }

  function FitFromDict(j: Json): Option<Fit>
  {
    match (Field(j, "width"), Field(j, "height"), Field(j, "upscale"))
    case (Some(JInt(w)), Some(JInt(h)), Some(JBool(u))) => Some(Fit(w, h, u))
    case _ => None
  }

  lemma FitRoundTrip(f: Fit)
    ensures FitFromDict(FitToDict(f)) == Some(f)
  {
    var fs := FitToDict(f).fields;
    LookupFirst(fs, 0);
    LookupFirst(fs, 1);
    LookupFirst(fs, 2);
  }

  // ---------------------------------------------------------- ApiOutput

  /** One output as sent to the signing endpoint. `imageType` is the
      source's `type` (the target encoding); `upload` and `crop` are the
      caller's objects, passed through unchanged, with `JNull` for `None`. */
  datatype ApiOutput = ApiOutput(fit: Fit, imageType: string, quality: Option<int>, upload: Json, crop: Json)

  function QualityToJson(q: Option<int>): Json
  {
    if q.Some? then JInt(q.value) else JNull
  }

  function ApiOutputToDict(o: ApiOutput): Json
  {
    JObj([("fit", FitToDict(o.fit)),
          ("type", JStr(o.imageType)),
          ("quality", QualityToJson(o.quality)),
          ("upload", o.upload),
          ("crop", o.crop)])
  }

  function ApiOutputFromDict(j: Json): Option<ApiOutput>
  {
    match (Field(j, "fit"), Field(j, "type"), Field(j, "quality"), Field(j, "upload"), Field(j, "crop"))
    case (Some(fj), Some(JStr(t)), Some(qj), Some(u), Some(c)) =>
      var fit := FitFromDict(fj);
      if fit.None? then None
      else if qj.JNull? then Some(ApiOutput(fit.value, t, None, u, c))
      else if qj.JInt? then Some(ApiOutput(fit.value, t, Some(qj.i), u, c))
      else None
    case _ => None
  }

  /** Every field of an output survives `to_dict`: the dict determines the output. */
  lemma ApiOutputRoundTrip(o: ApiOutput)
    ensures ApiOutputFromDict(ApiOutputToDict(o)) == Some(o)
  {
    var j := ApiOutputToDict(o);
    var fs := j.fields;
    assert Field(j, "fit") == Some(FitToDict(o.fit)) by { LookupFirst(fs, 0); }
    assert Field(j, "type") == Some(JStr(o.imageType)) by { LookupFirst(fs, 1); }
    assert Field(j, "quality") == Some(QualityToJson(o.quality)) by { LookupFirst(fs, 2); }
    assert Field(j, "upload") == Some(o.upload) by { LookupFirst(fs, 3); }
    assert Field(j, "crop") == Some(o.crop) by { LookupFirst(fs, 4); }
    FitRoundTrip(o.fit);
  }

  // ------------------------------------------------- ApiTransformOptions

  /** The body of the signing request: the input source string and the
      outputs, in the caller's order. */
  datatype ApiTransformOptions = ApiTransformOptions(input: string, output: seq<ApiOutput>)

  function OutputsToJson(os: seq<ApiOutput>): (r: seq<Json>)
    ensures |r| == |os|
  {
    seq(|os|, i requires 0 <= i < |os| => ApiOutputToDict(os[i]))
  }

  function OutputsFromJson(items: seq<Json>): Option<seq<ApiOutput>>
    decreases |items|
  {
    if items == [] then Some([])
    else
      match (ApiOutputFromDict(items[0]), OutputsFromJson(items[1..]))
      case (Some(o), Some(rest)) => Some([o] + rest)
      case _ => None
  }

  function ApiTransformOptionsToDict(x: ApiTransformOptions): Json
  {
    JObj([("input", JStr(x.input)), ("output", JArr(OutputsToJson(x.output)))])
  }

  function ApiTransformOptionsFromDict(j: Json): Option<ApiTransformOptions>
  {
    match (Field(j, "input"), Field(j, "output"))
    case (Some(JStr(input)), Some(JArr(items))) =>
      var os := OutputsFromJson(items);
      if os.Some? then Some(ApiTransformOptions(input, os.value)) else None
    case _ => None
  }

  /** The output list encodes element by element and decodes back to the
      same outputs in the same order. */
  lemma {:induction false} OutputsRoundTrip(os: seq<ApiOutput>)
    ensures OutputsFromJson(OutputsToJson(os)) == Some(os)
    decreases |os|
  {
    if os != [] {
      var items := OutputsToJson(os);
      assert items[1..] == OutputsToJson(os[1..]);
      ApiOutputRoundTrip(os[0]);
      OutputsRoundTrip(os[1..]);
      assert [os[0]] + os[1..] == os;
    }
  }

  /** The signing request body loses nothing: decoding it gives back the
      input string and every output in order. */
  lemma SignBodyRoundTrip(x: ApiTransformOptions)
    ensures ApiTransformOptionsFromDict(ApiTransformOptionsToDict(x)) == Some(x)
  {
    var fs := ApiTransformOptionsToDict(x).fields;
    LookupFirst(fs, 0);
    LookupFirst(fs, 1);
    OutputsRoundTrip(x.output);
  }
}
