/** `RemoteModel` of remote.model.ts: the meta-graph read from a TensorFlow
    Serving metadata response, the parameters computed from it, and the
    shape of a predict request and of the logits read from its response. The
    HTTP exchange itself is left to the caller: the metadata and the response
    are values. */
module RemoteModel {
  import opened Js
  import opened MetaGraph
  import Runtime
  import opened Models

  /* ---------------------------------------------------------------------- */
  /* parseInt                                                                */
  /* ---------------------------------------------------------------------- */

  predicate IsDigit(c: char) {
    '0' <= c <= '9'
  }

  /** The white space `parseInt` skips: the ECMAScript WhiteSpace characters
      (tab, vertical tab, form feed, the byte-order mark and every space
      separator of Unicode category Zs) and the LineTerminator characters. */
  predicate IsSpace(c: char) {
    || c == '\t' || c == '\U{000B}' || c == '\U{000C}' || c == '\U{FEFF}'
    || c == ' ' || c == '\U{00A0}' || c == '\U{1680}' || '\U{2000}' <= c <= '\U{200A}'
    || c == '\U{202F}' || c == '\U{205F}' || c == '\U{3000}'
    || c == '\n' || c == '\r' || c == '\U{2028}' || c == '\U{2029}'
  }

  /** The string without its leading white space. */
  function TrimStart(s: string): (t: string)
    ensures |t| <= |s| && t == s[|s| - |t|..]
    ensures |t| > 0 ==> !IsSpace(t[0])
  {
    if |s| > 0 && IsSpace(s[0]) then TrimStart(s[1..]) else s
  }

  /** The length of the run of digits `s` starts with. */
  function DigitRun(s: string): (k: nat)
    ensures k <= |s|
    ensures forall i :: 0 <= i < k ==> IsDigit(s[i])
    ensures k < |s| ==> !IsDigit(s[k])
  {
    if |s| > 0 && IsDigit(s[0]) then 1 + DigitRun(s[1..]) else 0
  }

  function DigitValue(c: char): nat
    requires IsDigit(c)
  {
    c as int - '0' as int
  }

  /** The decimal value of a run of digits. */
  function DigitsValue(ds: string): nat
    requires forall i :: 0 <= i < |ds| ==> IsDigit(ds[i])
  {
    if ds == [] then 0
    else DigitsValue(ds[..|ds| - 1]) * 10 + DigitValue(ds[|ds| - 1])
  }

  /** `parseInt(s)` for decimal text: leading white space and one sign are
      skipped, then the longest run of digits is read; without a digit the
      result is NaN. */
  function ParseInt(s: string): (d: Dim)
    ensures d.Num? || d.NotANumber?
  {
    var t := TrimStart(s);
    var signed := |t| > 0 && (t[0] == '-' || t[0] == '+');
    var u := if signed then t[1..] else t;
    var k := DigitRun(u);
    if k == 0 then NotANumber
    else
      var v: int := DigitsValue(u[..k]);
      Num(if signed && t[0] == '-' then -v else v)
  }

  function DigitChar(d: nat): char
    requires d < 10
  {
    ('0' as int + d) as char
  }

  /** The decimal text of a natural number. */
  function NatToString(n: nat): (s: string)
    ensures |s| > 0 && forall i :: 0 <= i < |s| ==> IsDigit(s[i])
  {
    if n < 10 then [DigitChar(n)] else NatToString(n / 10) + [DigitChar(n % 10)]
  }

  /** The decimal text of an integer, as a server writes a dimension size. */
  function IntToString(i: int): string {
    if i < 0 then "-" + NatToString(-i) else NatToString(i)
  }

  lemma {:induction false} DigitsValueOfNat(n: nat)
    ensures DigitsValue(NatToString(n)) == n
  {
    var s := NatToString(n);
    if n >= 10 {
      DigitsValueOfNat(n / 10);
      assert s[..|s| - 1] == NatToString(n / 10);
    }
  }

  lemma {:induction false} DigitRunOfDigits(s: string)
    requires forall i :: 0 <= i < |s| ==> IsDigit(s[i])
    ensures DigitRun(s) == |s|
  {
    if |s| > 0 {
      DigitRunOfDigits(s[1..]);
    }
  }

  /** The digits of a natural number, read back after an optional sign. */
  lemma ParseDigits(digits: string, n: nat)
    requires digits == NatToString(n)
    ensures DigitRun(digits) == |digits| && digits[..|digits|] == digits && DigitsValue(digits) == n
  {
    DigitsValueOfNat(n);
    DigitRunOfDigits(digits);
  }

  /** Nothing to trim before a sign or a digit. */
  lemma TrimNothing(s: string)
    requires |s| > 0 && !IsSpace(s[0])
    ensures TrimStart(s) == s
  {
  }

  /** `parseInt` reads back every size written in decimal. */
  lemma ParseIntRoundTrip(i: int)
    ensures ParseInt(IntToString(i)) == Num(i)
  {
    var s := IntToString(i);
    if i < 0 {
      var digits := NatToString(-i);
      ParseDigits(digits, -i);
      assert s == "-" + digits;
      TrimNothing(s);
      var u := s[1..];
      assert u == digits;
      assert DigitRun(u) == |digits|;
      assert DigitsValue(u[..DigitRun(u)]) == -i;
    } else {
      var digits := NatToString(i);
      ParseDigits(digits, i);
      assert s == digits;
      assert IsDigit(s[0]);
      TrimNothing(s);
      assert !(s[0] == '-' || s[0] == '+');
      assert DigitsValue(s[..DigitRun(s)]) == i;
    }
  }

  /* ---------------------------------------------------------------------- */
  /* getRemoteMetaGraph                                                      */
  /* ---------------------------------------------------------------------- */

  /** An input tensor of the metadata: the `size` of each `tensor_shape.dim`. */
  datatype RawTensor = RawTensor(dimSizes: seq<string>)

  /** A signature of the metadata: its inputs, and the keys of its outputs. */
  datatype RawSignature = RawSignature(inputs: map<string, RawTensor>, outputs: set<string>)

  /** `metadata.signature_def.signature_def` */
  type RawSignatureDefs = map<string, RawSignature>

  /** The `reduce` over the dimensions: one `parseInt` per size, in order. */
  function ParseShape(sizes: seq<string>): seq<Dim> {
    seq(|sizes|, i requires 0 <= i < |sizes| => ParseInt(sizes[i]))
  }

  /** One parsed signature: every input with its parsed shape, every output
      key with empty information. */
  function ParseSignature(raw: RawSignature): SignatureDef {
    SignatureDef(map k | k in raw.inputs :: TensorInfo(Some(ParseShape(raw.inputs[k].dimSizes))), raw.outputs)
  }

  /** Signature names the server reserves for itself. */
  predicate Reserved(name: string) {
    StartsWith(name, "__")
  }

  /** `getRemoteMetaGraph`, from the metadata response on. */
  function GetRemoteMetaGraph(raw: RawSignatureDefs): PartialMetaGraph {
    PartialMetaGraph(map k | k in raw && !Reserved(k) :: ParseSignature(raw[k]))
  }

  /** Shapes of a remote graph are plain numbers (or NaN), so the shape
      normalisation keeps them as they are; sizes written in decimal come
      back as the numbers themselves. */
  lemma RemoteShapesNormalize(sizes: seq<string>)
    requires |sizes| > 0
    ensures NormalizeShape(Some(ParseShape(sizes))) == Ok(ParseShape(sizes))
  {
  }

  lemma RemoteShapesRoundTrip(dims: seq<int>)
    ensures ParseShape(seq(|dims|, i requires 0 <= i < |dims| => IntToString(dims[i])))
            == seq(|dims|, i requires 0 <= i < |dims| => Num(dims[i]))
  {
    forall i | 0 <= i < |dims| {
      ParseIntRoundTrip(dims[i]);
    }
  }

  /** `RemoteModel.fromOptions`: the parameters come from the remote graph and
      the model defaults. */
  function FromOptions(options: ModelOptions, raw: RawSignatureDefs): (r: Result<ModelParams, ParamsError>)
    ensures r == ComputeParams(options, GetRemoteMetaGraph(raw), ModelDefaults)
    // a reserved signature cannot be selected, even when the server lists it
    ensures var name := options.signatureName.GetOr("serving_default");
            (r == Err(NoSignature(name))) <==> (name !in raw || Reserved(name))
  {
    ComputeParams(options, GetRemoteMetaGraph(raw), ModelDefaults)
  }

  /** A server that exposes only "serving_default" (plus reserved signatures)
      with the default tensor names and a decimal ids shape is accepted with
      default options, with that shape. */
  lemma DefaultServerAccepted(reserved: RawSignatureDefs, dims: seq<int>, path: string)
    requires forall k :: k in reserved ==> Reserved(k)
    requires |dims| > 0
    ensures var sizes := seq(|dims|, i requires 0 <= i < |dims| => IntToString(dims[i]));
            var sig := RawSignature(map["attention_mask" := RawTensor(sizes), "input_ids" := RawTensor(sizes)],
                                    {"output_0", "output_1"});
            var options := ModelOptions(None, ModelInputOverrides(None, None), Runtime.NoOutputOverrides, path, None);
            var r := FromOptions(options, reserved["serving_default" := sig]);
            r.Ok? && r.value.shape == seq(|dims|, i requires 0 <= i < |dims| => Num(dims[i]))
  {
    var sizes := seq(|dims|, i requires 0 <= i < |dims| => IntToString(dims[i]));
    var sig := RawSignature(map["attention_mask" := RawTensor(sizes), "input_ids" := RawTensor(sizes)],
                            {"output_0", "output_1"});
    var g := GetRemoteMetaGraph(reserved["serving_default" := sig]);
    assert !Reserved("serving_default") by {
      assert "serving_default"[..2][0] == 's';
    }
    assert g.signatureDefs["serving_default"] == ParseSignature(sig);
    RemoteShapesRoundTrip(dims);
    DefaultOptionsAccepted(g, path, dims);
  }

  /* ---------------------------------------------------------------------- */
  /* runInference                                                            */
  /* ---------------------------------------------------------------------- */

  /** The POST the model sends: its URL and the JSON body. */
  datatype PredictRequest = PredictRequest(url: string, inputs: Obj<seq<seq<int>>>, signatureName: string)

  /** The body of the request: the tensors under the configured names. */
  function PredictInputs(params: ModelParams, ids: seq<seq<int>>, attentionMask: seq<seq<int>>)
    : (inputs: Obj<seq<seq<int>>>)
    ensures Get(inputs, params.inputsNames.attentionMask) == Some(attentionMask)
    ensures params.inputsNames.ids != params.inputsNames.attentionMask ==>
              Get(inputs, params.inputsNames.ids) == Some(ids)
              && Keys(inputs) == [params.inputsNames.ids, params.inputsNames.attentionMask]
    // with one name for both, the attention mask silently replaces the ids
    ensures params.inputsNames.ids == params.inputsNames.attentionMask ==>
              Keys(inputs) == [params.inputsNames.ids]
  {
    Put([(params.inputsNames.ids, ids)], params.inputsNames.attentionMask, attentionMask)
  }

  function BuildRequest(params: ModelParams, ids: seq<seq<int>>, attentionMask: seq<seq<int>>)
    : PredictRequest
  {
    PredictRequest(params.path + ":predict", PredictInputs(params, ids, attentionMask), params.signatureName)
  }

  /** The metadata is read from the model URL plus "/metadata", predictions
      are posted to the same URL plus ":predict". */
  function MetadataUrl(path: string): string {
    path + "/metadata"
  }

  /** The two endpoints of a model URL: the metadata is never read from a
      prediction URL, and each URL determines the model path it was built
      from, so different models never share an endpoint. */
  lemma EndpointsDistinct(params: ModelParams, other: ModelParams, ids: seq<seq<int>>, attentionMask: seq<seq<int>>)
    ensures MetadataUrl(other.path) != BuildRequest(params, ids, attentionMask).url
    ensures MetadataUrl(params.path) == MetadataUrl(other.path) ==> params.path == other.path
    ensures BuildRequest(params, ids, attentionMask).url == BuildRequest(other, ids, attentionMask).url
            ==> params.path == other.path
    // the request names the model's signature and carries the inputs under their names
    ensures BuildRequest(params, ids, attentionMask).signatureName == params.signatureName
    ensures Get(BuildRequest(params, ids, attentionMask).inputs, params.inputsNames.attentionMask) == Some(attentionMask)
  {
    var m, u := MetadataUrl(other.path), BuildRequest(params, ids, attentionMask).url;
    assert m[|m| - 1] == 'a' && u[|u| - 1] == 't';
    if MetadataUrl(params.path) == MetadataUrl(other.path) {
      assert |params.path| == |other.path|;
      assert MetadataUrl(params.path)[..|params.path|] == params.path;
      assert MetadataUrl(other.path)[..|other.path|] == other.path;
    }
    var u' := BuildRequest(other, ids, attentionMask).url;
    if u == u' {
      assert |params.path| == |other.path|;
      assert u[..|params.path|] == params.path;
      assert u'[..|other.path|] == other.path;
    }
  }

  /** The `outputs` of the JSON response. */
  type PredictOutputs = Obj<seq<seq<real>>>

  /** The two logits read from the response under the configured names
      (undefined when the server did not send them). */
  function ReadLogits(params: ModelParams, outputs: PredictOutputs)
    : (Option<seq<seq<real>>>, Option<seq<seq<real>>>)
  {
    (Get(outputs, params.outputsNames.startLogits), Get(outputs, params.outputsNames.endLogits))
  }

  /** A server answering under the configured output names. */
  function ServerOutputs(params: ModelParams, startLogits: seq<seq<real>>, endLogits: seq<seq<real>>)
    : PredictOutputs
  {
    Put([(params.outputsNames.startLogits, startLogits)], params.outputsNames.endLogits, endLogits)
  }

  /** The logits a conforming server sends are the logits the model returns,
      in the order start, end, whatever else the server adds after them. */
  lemma LogitsRoundTrip(params: ModelParams, startLogits: seq<seq<real>>, endLogits: seq<seq<real>>,
                        extra: PredictOutputs)
    requires params.outputsNames.startLogits != params.outputsNames.endLogits
    ensures ReadLogits(params, ServerOutputs(params, startLogits, endLogits) + extra)
            == (Some(startLogits), Some(endLogits))
  {
    var out := ServerOutputs(params, startLogits, endLogits);
    assert out == [(params.outputsNames.startLogits, startLogits), (params.outputsNames.endLogits, endLogits)];
    GetAppend(out, extra, params.outputsNames.startLogits);
    GetAppend(out, extra, params.outputsNames.endLogits);
  }

  /** A key already present is found before anything appended. */
  lemma {:induction false} GetAppend<V>(o: Obj<V>, extra: Obj<V>, k: string)
    requires k in Keys(o)
    ensures Get(o + extra, k) == Get(o, k)
  {
    if o[0].0 != k {
      assert (o + extra)[1..] == o[1..] + extra;
      assert Keys(o) == [o[0].0] + Keys(o[1..]);
      GetAppend(o[1..], extra, k);
    }
  }
}
