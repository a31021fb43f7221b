/** The part of a saved model's meta-graph that parameter resolution reads:
    named signatures, the input tensors (with their shapes) and the output
    names of each, plus the two checks that every `computeParams` shares: the
    signature and every configured tensor name must exist, and the ids input's
    shape is normalised to plain numbers. */
module MetaGraph {
  import opened Js

  /** One element of a tensor shape as a backend reports it: a number (`parseInt`
      may give NaN, which is still of type number) or a boxed `{ array: [n] }`. */
  datatype Dim = Num(n: int) | NotANumber | Boxed(first: int)

  /** `typeof d === "number"` */
  predicate IsNumber(d: Dim) {
    d.Num? || d.NotANumber?
  }

  /** `shape` is optional in a tensor description. */
  datatype TensorInfo = TensorInfo(shape: Option<seq<Dim>>)

  datatype SignatureDef = SignatureDef(inputs: map<string, TensorInfo>, outputs: set<string>)

  datatype PartialMetaGraph = PartialMetaGraph(signatureDefs: map<string, SignatureDef>)

  /** What `computeParams` throws: the three messages it raises itself, and the
      `TypeError` of reading `[0]` or `.array` of something that is not there.
      `NoMetaGraph` is the `TypeError` of reading `signatureDefs` of the
      `undefined` first element of an empty list of meta-graphs. */
  datatype ParamsError =
    | NoSignature(name: string)
    | NoInput(name: string)
    | NoOutput(name: string)
    | ShapeTypeError
    | NoMetaGraph

  /** The first name of `names` that is not in `present`, in order. */
  function FirstMissing(names: seq<string>, present: set<string>): (r: Option<string>)
    ensures r.None? <==> forall i :: 0 <= i < |names| ==> names[i] in present
    ensures r.Some? ==> exists k :: 0 <= k < |names| && names[k] == r.value && r.value !in present
                                     && forall j :: 0 <= j < k ==> names[j] in present
  {
    if names == [] then None
    else if names[0] !in present then Some(names[0])
    else
      var rest := FirstMissing(names[1..], present);
      if rest.Some? then
        var k :| 0 <= k < |names[1..]| && names[1..][k] == rest.value && rest.value !in present
                 && forall j :: 0 <= j < k ==> names[1..][j] in present;
        assert names[k + 1] == rest.value;
        rest
      else rest
  }

  /** The three validation steps of `computeParams`, in the order they throw:
      the signature must exist, then every input name, then every output name. */
  function CheckSignature(graph: PartialMetaGraph, sigName: string,
                          inNames: seq<string>, outNames: seq<string>): (r: Result<SignatureDef, ParamsError>)
    ensures r.Ok? <==> sigName in graph.signatureDefs
                       && (forall i :: 0 <= i < |inNames| ==> inNames[i] in graph.signatureDefs[sigName].inputs)
                       && (forall i :: 0 <= i < |outNames| ==> outNames[i] in graph.signatureDefs[sigName].outputs)
    ensures r.Ok? ==> r.value == graph.signatureDefs[sigName]
    ensures (r == Err(NoSignature(sigName))) <==> sigName !in graph.signatureDefs
    ensures r.Err? && r.error.NoInput? ==>
              sigName in graph.signatureDefs && r.error.name in inNames
              && FirstMissing(inNames, graph.signatureDefs[sigName].inputs.Keys) == Some(r.error.name)
    ensures r.Err? && r.error.NoOutput? ==>
              sigName in graph.signatureDefs && r.error.name in outNames
              && r.error.name !in graph.signatureDefs[sigName].outputs
              && forall i :: 0 <= i < |inNames| ==> inNames[i] in graph.signatureDefs[sigName].inputs
    ensures r.Err? && r.error.NoOutput? ==>
              sigName in graph.signatureDefs
              && FirstMissing(outNames, graph.signatureDefs[sigName].outputs) == Some(r.error.name)
    ensures r.Err? ==> !r.error.ShapeTypeError?
  {
    if sigName !in graph.signatureDefs then Err(NoSignature(sigName))
    else
      var sig := graph.signatureDefs[sigName];
      match FirstMissing(inNames, sig.inputs.Keys)
      case Some(n) => Err(NoInput(n))
      case None =>
        match FirstMissing(outNames, sig.outputs)
        case Some(n) => Err(NoOutput(n))
        case None => Ok(sig)
  }

  /** Every element unboxed, or None when one of them is a plain number (whose
      `.array` is undefined). */
  function UnboxAll(raw: seq<Dim>): (r: Option<seq<Dim>>)
    ensures r.Some? <==> forall i :: 0 <= i < |raw| ==> raw[i].Boxed?
    ensures r.Some? ==> |r.value| == |raw| && forall i :: 0 <= i < |raw| ==> r.value[i] == Num(raw[i].first)
  {
    if raw == [] then Some([])
    else if !raw[0].Boxed? then None
    else
      match UnboxAll(raw[1..])
      case None => None
      case Some(rest) => Some([Num(raw[0].first)] + rest)
  }

  /** The shape normalisation: a shape whose first element is a number is kept
      as it is; otherwise every element is `array[0]` of a boxed element. */
  function NormalizeShape(raw: Option<seq<Dim>>): (r: Result<seq<Dim>, ParamsError>)
    ensures raw.None? ==> r == Err(ShapeTypeError)
    ensures raw.Some? && |raw.value| > 0 && IsNumber(raw.value[0]) ==> r == Ok(raw.value)
    ensures raw.Some? && (|raw.value| == 0 || raw.value[0].Boxed?) ==>
              (r.Ok? <==> forall i :: 0 <= i < |raw.value| ==> raw.value[i].Boxed?)
    ensures raw.Some? && (|raw.value| == 0 || raw.value[0].Boxed?) && r.Ok? ==>
              |r.value| == |raw.value|
              && forall i :: 0 <= i < |raw.value| ==> r.value[i] == Num(raw.value[i].first)
    ensures r.Err? ==> r.error == ShapeTypeError
  {
    match raw
    case None => Err(ShapeTypeError)
    case Some(s) =>
      if |s| > 0 && IsNumber(s[0]) then Ok(s)
      else
        match UnboxAll(s)
        case None => Err(ShapeTypeError)
        case Some(u) => Ok(u)
  }

  /** A normalised shape of a well-formed graph is made of numbers only: the
      backend reports either all plain numbers or all boxed ones. */
  lemma NormalizedShapeIsNumeric(raw: seq<Dim>)
    requires (forall i :: 0 <= i < |raw| ==> raw[i].Num?) || (forall i :: 0 <= i < |raw| ==> raw[i].Boxed?)
    ensures NormalizeShape(Some(raw)).Ok?
    ensures forall i :: 0 <= i < |NormalizeShape(Some(raw)).value| ==> NormalizeShape(Some(raw)).value[i].Num?
  {
  }

  /** The shape of the ids input of a validated signature. */
  function IdsShape(sig: SignatureDef, idsName: Option<string>): Result<seq<Dim>, ParamsError> {
    if idsName.None? || idsName.value !in sig.inputs then Err(ShapeTypeError)
    else NormalizeShape(sig.inputs[idsName.value].shape)
  }
}
