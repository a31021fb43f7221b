/** `Runtime.computeParams` and `isOneDimensional` of the runtime layer: the
    parameters of a loaded model are resolved from the caller's options, a
    table of defaults and the model's meta-graph. */
module Runtime {
  import opened Js
  import opened MetaGraph

  /** The input tensors a model class declares. */
  datatype ModelInput = AttentionMask | Ids | TokenTypeIds

  /** A complete table of input names, one per `ModelInput`. */
  datatype InputNames = InputNames(attentionMask: string, ids: string, tokenTypeIds: string) {
    function Get(i: ModelInput): string {
      match i
      case AttentionMask => attentionMask
      case Ids => ids
      case TokenTypeIds => tokenTypeIds
    }
  }

  /** Caller overrides of the input names; each may be absent. */
  datatype InputOverrides = InputOverrides(attentionMask: Option<string>, ids: Option<string>,
                                           tokenTypeIds: Option<string>) {
    function Get(i: ModelInput): Option<string> {
      match i
      case AttentionMask => attentionMask
      case Ids => ids
      case TokenTypeIds => tokenTypeIds
    }
  }

  const NoInputOverrides := InputOverrides(None, None, None)

  datatype OutputNames = OutputNames(startLogits: string, endLogits: string)

  datatype OutputOverrides = OutputOverrides(startLogits: Option<string>, endLogits: Option<string>)

  const NoOutputOverrides := OutputOverrides(None, None)

  datatype ModelDefaults = ModelDefaults(inputsNames: InputNames, outputsNames: OutputNames,
                                         signatureName: string)

  /** `MODEL_DEFAULTS` */
  const Defaults := ModelDefaults(InputNames("attention_mask", "input_ids", "token_type_ids"),
                                  OutputNames("output_0", "output_1"), "serving_default")

  datatype RuntimeOptions = RuntimeOptions(inputs: seq<ModelInput>, inputsNames: InputOverrides,
                                           outputsNames: OutputOverrides, path: string,
                                           signatureName: Option<string>)

  datatype FullParams = FullParams(inputsNames: map<ModelInput, string>, outputsNames: OutputNames,
                                   path: string, shape: seq<Dim>, signatureName: string)

  /** The `reduce` over `options.inputs`: one entry per listed input, override
      first, default otherwise. */
  function ResolveInputNames(inputs: seq<ModelInput>, overrides: InputOverrides,
                             defaults: InputNames): (m: map<ModelInput, string>)
    ensures m.Keys == set i | i in inputs
    ensures forall i :: i in m ==> m[i] == overrides.Get(i).GetOr(defaults.Get(i))
  {
    if inputs == [] then map[]
    else
      var last := inputs[|inputs| - 1];
      var m := ResolveInputNames(inputs[..|inputs| - 1], overrides, defaults);
      assert inputs == inputs[..|inputs| - 1] + [last];
      m[last := overrides.Get(last).GetOr(defaults.Get(last))]
  }

  function ResolveOutputNames(overrides: OutputOverrides, defaults: OutputNames): OutputNames {
    OutputNames(overrides.startLogits.GetOr(defaults.startLogits),
                overrides.endLogits.GetOr(defaults.endLogits))
  }

  /** The name an input resolves to: the caller's override, else the default. */
  function InputName(options: RuntimeOptions, defaults: ModelDefaults, i: ModelInput): string {
    options.inputsNames.Get(i).GetOr(defaults.inputsNames.Get(i))
  }

  /** The resolved input names in `options.inputs` order, the order in which
      the `for ... of Object.values(...)` loop checks them. */
  function InputNamesInOrder(options: RuntimeOptions, defaults: ModelDefaults): seq<string> {
    seq(|options.inputs|, k requires 0 <= k < |options.inputs| => InputName(options, defaults, options.inputs[k]))
  }

  lemma FirstMissingInput(options: RuntimeOptions, defaults: ModelDefaults, present: set<string>, n: string)
    requires FirstMissing(InputNamesInOrder(options, defaults), present) == Some(n)
    ensures exists k :: 0 <= k < |options.inputs| && n == InputName(options, defaults, options.inputs[k])
                        && n !in present
                        && forall j :: 0 <= j < k ==> InputName(options, defaults, options.inputs[j]) in present
  {
    var names := InputNamesInOrder(options, defaults);
    var k :| 0 <= k < |names| && names[k] == n && n !in present && forall j :: 0 <= j < k ==> names[j] in present;
    assert forall j :: 0 <= j < k ==> InputName(options, defaults, options.inputs[j]) == names[j];
  }

  lemma AllInputsPresent(options: RuntimeOptions, defaults: ModelDefaults, present: set<string>)
    requires forall k :: 0 <= k < |InputNamesInOrder(options, defaults)| ==> InputNamesInOrder(options, defaults)[k] in present
    ensures forall i :: i in options.inputs ==> InputName(options, defaults, i) in present
  {
    var names := InputNamesInOrder(options, defaults);
    forall i | i in options.inputs ensures InputName(options, defaults, i) in present {
      var k :| 0 <= k < |options.inputs| && options.inputs[k] == i;
      assert names[k] == InputName(options, defaults, i);
    }
  }

  lemma FirstMissingPair(a: string, b: string, present: set<string>, n: string)
    requires FirstMissing([a, b], present) == Some(n)
    ensures n == (if a !in present then a else b) && n !in present
  {
    if a in present {
      assert [a, b][1..] == [b];
      assert [b][1..] == [];
    }
  }

  /** `Runtime.computeParams(options, graph, defaults)` */
  function ComputeParams(options: RuntimeOptions, graph: PartialMetaGraph,
                         defaults: ModelDefaults): (r: Result<FullParams, ParamsError>)
    // the signature name is override-or-default, and a missing signature is the first error
    ensures var sigName := options.signatureName.GetOr(defaults.signatureName);
            (r == Err(NoSignature(sigName))) <==> sigName !in graph.signatureDefs
    // a missing input is the first one in `options.inputs` order whose name is absent
    ensures var sigName := options.signatureName.GetOr(defaults.signatureName);
            r.Err? && r.error.NoInput? ==>
              sigName in graph.signatureDefs
              && exists k :: 0 <= k < |options.inputs|
                   && r.error.name == InputName(options, defaults, options.inputs[k])
                   && r.error.name !in graph.signatureDefs[sigName].inputs
                   && forall j :: 0 <= j < k ==>
                        InputName(options, defaults, options.inputs[j]) in graph.signatureDefs[sigName].inputs
    // outputs are checked only once every input is present: the end logits first, then the start logits
    ensures var sigName := options.signatureName.GetOr(defaults.signatureName);
            var outs := ResolveOutputNames(options.outputsNames, defaults.outputsNames);
            r.Err? && r.error.NoOutput? ==>
              sigName in graph.signatureDefs
              && (forall i :: i in options.inputs ==>
                    InputName(options, defaults, i) in graph.signatureDefs[sigName].inputs)
              && r.error.name == (if outs.endLogits !in graph.signatureDefs[sigName].outputs
                                  then outs.endLogits else outs.startLogits)
              && r.error.name !in graph.signatureDefs[sigName].outputs
    // on success every configured name is present and each field is resolved as documented
    ensures r.Ok? ==>
              var p := r.value;
              && p.signatureName == options.signatureName.GetOr(defaults.signatureName)
              && p.signatureName in graph.signatureDefs
              && p.path == options.path
              && p.inputsNames.Keys == (set i | i in options.inputs)
              && (forall i :: i in p.inputsNames ==>
                    p.inputsNames[i] == options.inputsNames.Get(i).GetOr(defaults.inputsNames.Get(i))
                    && p.inputsNames[i] in graph.signatureDefs[p.signatureName].inputs)
              && p.outputsNames.startLogits == options.outputsNames.startLogits.GetOr(defaults.outputsNames.startLogits)
              && p.outputsNames.endLogits == options.outputsNames.endLogits.GetOr(defaults.outputsNames.endLogits)
              && p.outputsNames.startLogits in graph.signatureDefs[p.signatureName].outputs
              && p.outputsNames.endLogits in graph.signatureDefs[p.signatureName].outputs
              && Ids in p.inputsNames
              && NormalizeShape(graph.signatureDefs[p.signatureName].inputs[p.inputsNames[Ids]].shape) == Ok(p.shape)
  {
    var inputsNames := ResolveInputNames(options.inputs, options.inputsNames, defaults.inputsNames);
    var outputsNames := ResolveOutputNames(options.outputsNames, defaults.outputsNames);
    var sigName := options.signatureName.GetOr(defaults.signatureName);
    var inNames := InputNamesInOrder(options, defaults);
    match CheckSignature(graph, sigName, inNames, [outputsNames.endLogits, outputsNames.startLogits])
    case Err(e) =>
      if e.NoInput? then
        FirstMissingInput(options, defaults, graph.signatureDefs[sigName].inputs.Keys, e.name);
        Err(e)
      else if e.NoOutput? then
        AllInputsPresent(options, defaults, graph.signatureDefs[sigName].inputs.Keys);
        FirstMissingPair(outputsNames.endLogits, outputsNames.startLogits, graph.signatureDefs[sigName].outputs, e.name);
        Err(e)
      else Err(e)
    case Ok(sig) =>
      assert [outputsNames.endLogits, outputsNames.startLogits][1] == outputsNames.startLogits;
      assert forall i :: i in inputsNames ==> inputsNames[i] in sig.inputs by {
        forall i | i in inputsNames ensures inputsNames[i] in sig.inputs {
          var k :| 0 <= k < |options.inputs| && options.inputs[k] == i;
          assert inNames[k] == inputsNames[i];
        }
      }
      var idsName := if Ids in inputsNames then Some(inputsNames[Ids]) else None;
      match IdsShape(sig, idsName)
      case Err(e) => Err(e)
      case Ok(shape) => Ok(FullParams(inputsNames, outputsNames, options.path, shape, sigName))
  }

  /** Success is exactly: the signature exists, every configured name is in it,
      the ids input is configured and its shape normalises. */
  lemma ComputeParamsSucceedsIff(options: RuntimeOptions, graph: PartialMetaGraph, defaults: ModelDefaults)
    ensures var sigName := options.signatureName.GetOr(defaults.signatureName);
            var m := ResolveInputNames(options.inputs, options.inputsNames, defaults.inputsNames);
            var outs := ResolveOutputNames(options.outputsNames, defaults.outputsNames);
            ComputeParams(options, graph, defaults).Ok? <==>
              && sigName in graph.signatureDefs
              && (forall i :: i in m ==> m[i] in graph.signatureDefs[sigName].inputs)
              && outs.startLogits in graph.signatureDefs[sigName].outputs
              && outs.endLogits in graph.signatureDefs[sigName].outputs
              && Ids in m
              && NormalizeShape(graph.signatureDefs[sigName].inputs[m[Ids]].shape).Ok?
  {
    var sigName := options.signatureName.GetOr(defaults.signatureName);
    var m := ResolveInputNames(options.inputs, options.inputsNames, defaults.inputsNames);
    var outs := ResolveOutputNames(options.outputsNames, defaults.outputsNames);
    var inNames := seq(|options.inputs|, k requires 0 <= k < |options.inputs| => m[options.inputs[k]]);
    var outNames := [outs.endLogits, outs.startLogits];
    if sigName in graph.signatureDefs {
      var sig := graph.signatureDefs[sigName];
      if forall i :: i in m ==> m[i] in sig.inputs {
        assert forall k :: 0 <= k < |inNames| ==> inNames[k] in sig.inputs;
      } else {
        var i :| i in m && m[i] !in sig.inputs;
        var k :| 0 <= k < |options.inputs| && options.inputs[k] == i;
        assert inNames[k] !in sig.inputs;
      }
      assert outNames[0] == outs.endLogits && outNames[1] == outs.startLogits;
    }
  }

  /** The tensors of one inference request. */
  datatype Inputs = Inputs(ids: seq<seq<int>>, attentionMask: seq<seq<int>>,
                           tokenTypeIds: Option<seq<seq<int>>>)

  /** The `[startLogits, endLogits]` pair a model run gives back. */
  datatype Logits = Logits(startLogits: seq<seq<real>>, endLogits: seq<seq<real>>)

  /** Logits as they come back from a backend: either one vector of numbers or
      a batch of vectors, seen element by element. */
  datatype LogitsElem = Number(x: real) | Row(xs: seq<real>)

  /** `isOneDimensional(arr)`: `arr[0]` is not an array. An empty array is
      one-dimensional, since `arr[0]` is undefined. */
  predicate IsOneDimensional(arr: seq<LogitsElem>) {
    |arr| == 0 || !arr[0].Row?
  }

  /** The batch wrap that the worker threads apply to a squeezed result. */
  function AsBatch(arr: seq<LogitsElem>): (r: seq<LogitsElem>)
    // whatever the backend gives back, the caller sees a batch
    ensures !IsOneDimensional(r)
  {
    if IsOneDimensional(arr) then [Row(seq(|arr|, k requires 0 <= k < |arr| =>
                                     if arr[k].Number? then arr[k].x else 0.0))]
    else arr
  }

  /** A squeezed batch of one (a plain vector) is one-dimensional and its wrap
      is a batch again; a real batch is left alone. */
  lemma OneDimensionalClassifies(xs: seq<real>, rows: seq<seq<real>>)
    requires |rows| > 0
    ensures var flat := seq(|xs|, k requires 0 <= k < |xs| => Number(xs[k]));
            IsOneDimensional(flat) && AsBatch(flat) == [Row(xs)] && !IsOneDimensional(AsBatch(flat))
    ensures var batch := seq(|rows|, k requires 0 <= k < |rows| => Row(rows[k]));
            !IsOneDimensional(batch) && AsBatch(batch) == batch
  {
    var flat := seq(|xs|, k requires 0 <= k < |xs| => Number(xs[k]));
    assert seq(|flat|, k requires 0 <= k < |flat| => if flat[k].Number? then flat[k].x else 0.0) == xs;
  }

  /** Wrapping is applied once: a result already in batch form is passed on
      unchanged, so wrapping twice is wrapping once. */
  lemma AsBatchIdempotent(arr: seq<LogitsElem>)
    ensures AsBatch(AsBatch(arr)) == AsBatch(arr)
  {
    assert !IsOneDimensional(AsBatch(arr));
  }
}
