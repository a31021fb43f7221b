/** `Model.computeParams` of the model layer (models/model.ts) and of the older
    top-level model (src/model.ts). Both resolve a fixed pair of inputs (the
    attention mask and the ids), a casing flag that defaults to false, and the
    same validation and shape normalisation as the runtime layer. */
module Models {
  import opened Js
  import opened MetaGraph
  import opened Runtime

  /** The model families (`ModelType`) the factories tell apart. */
  datatype ModelType = Bert | Distilbert | Electra | Roberta

  datatype ModelInputNames = ModelInputNames(attentionMask: string, ids: string)

  datatype ModelInputOverrides = ModelInputOverrides(attentionMask: Option<string>, ids: Option<string>)

  datatype Defaults = Defaults(inputsNames: ModelInputNames, outputsNames: OutputNames,
                               signatureName: string)

  /** `MODEL_DEFAULTS` of both files. */
  const ModelDefaults := Defaults(ModelInputNames("attention_mask", "input_ids"),
                                  OutputNames("output_0", "output_1"), "serving_default")

  datatype ModelOptions = ModelOptions(cased: Option<bool>, inputsNames: ModelInputOverrides,
                                       outputsNames: OutputOverrides, path: string,
                                       signatureName: Option<string>)

  datatype ModelParams = ModelParams(cased: bool, inputsNames: ModelInputNames,
                                     outputsNames: OutputNames, path: string,
                                     shape: seq<Dim>, signatureName: string)

  /** The parameters before the signature is consulted. */
  function Resolve(options: ModelOptions, defaults: Defaults): ModelParams {
    ModelParams(options.cased.GetOr(false),
                ModelInputNames(options.inputsNames.attentionMask.GetOr(defaults.inputsNames.attentionMask),
                                options.inputsNames.ids.GetOr(defaults.inputsNames.ids)),
                ResolveOutputNames(options.outputsNames, defaults.outputsNames),
                options.path, [], options.signatureName.GetOr(defaults.signatureName))
  }

  /** `Model.computeParams(options, graph, defaults)` of models/model.ts */
  function ComputeParams(options: ModelOptions, graph: PartialMetaGraph, defaults: Defaults)
    : (r: Result<ModelParams, ParamsError>)
    ensures var p := Resolve(options, defaults);
            r.Ok? <==> && p.signatureName in graph.signatureDefs
                       && p.inputsNames.attentionMask in graph.signatureDefs[p.signatureName].inputs
                       && p.inputsNames.ids in graph.signatureDefs[p.signatureName].inputs
                       && p.outputsNames.endLogits in graph.signatureDefs[p.signatureName].outputs
                       && p.outputsNames.startLogits in graph.signatureDefs[p.signatureName].outputs
                       && NormalizeShape(graph.signatureDefs[p.signatureName].inputs[p.inputsNames.ids].shape).Ok?
    ensures var p := Resolve(options, defaults);
            r.Ok? ==> r.value == p.(shape := r.value.shape)
                      && NormalizeShape(graph.signatureDefs[p.signatureName].inputs[p.inputsNames.ids].shape)
                         == Ok(r.value.shape)
    ensures var p := Resolve(options, defaults);
            (r == Err(NoSignature(p.signatureName))) <==> p.signatureName !in graph.signatureDefs
    // the validation order: attention mask, ids, then end and start logits
    ensures var p := Resolve(options, defaults);
            r.Err? && r.error.NoInput? ==>
              p.signatureName in graph.signatureDefs
              && r.error.name !in graph.signatureDefs[p.signatureName].inputs
              && (r.error.name == p.inputsNames.attentionMask
                  || (r.error.name == p.inputsNames.ids
                      && p.inputsNames.attentionMask in graph.signatureDefs[p.signatureName].inputs))
    ensures var p := Resolve(options, defaults);
            r.Err? && r.error.NoOutput? ==>
              p.signatureName in graph.signatureDefs
              && r.error.name !in graph.signatureDefs[p.signatureName].outputs
              && r.error.name in {p.outputsNames.endLogits, p.outputsNames.startLogits}
  {
    var p := Resolve(options, defaults);
    var inNames := [p.inputsNames.attentionMask, p.inputsNames.ids];
    var outNames := [p.outputsNames.endLogits, p.outputsNames.startLogits];
    match CheckSignature(graph, p.signatureName, inNames, outNames)
    case Err(e) =>
      assert e.NoInput? ==> inNames[0] in graph.signatureDefs[p.signatureName].inputs || e.name == inNames[0];
      Err(e)
    case Ok(sig) =>
      assert inNames[0] in sig.inputs && inNames[1] in sig.inputs;
      assert outNames[0] in sig.outputs && outNames[1] in sig.outputs;
      match NormalizeShape(sig.inputs[p.inputsNames.ids].shape)
      case Err(e) => Err(e)
      case Ok(shape) => Ok(p.(shape := shape))
  }

  /** `Model.computeParams(options, graph)` of src/model.ts: the same resolution,
      always against the fixed `MODEL_DEFAULTS`. */
  function LegacyComputeParams(options: ModelOptions, graph: PartialMetaGraph)
    : (r: Result<ModelParams, ParamsError>)
    ensures r.Ok? ==> && r.value.cased == (options.cased == Some(true))
                      && r.value.inputsNames.attentionMask == options.inputsNames.attentionMask.GetOr("attention_mask")
                      && r.value.inputsNames.ids == options.inputsNames.ids.GetOr("input_ids")
                      && r.value.outputsNames.startLogits == options.outputsNames.startLogits.GetOr("output_0")
                      && r.value.outputsNames.endLogits == options.outputsNames.endLogits.GetOr("output_1")
                      && r.value.signatureName == options.signatureName.GetOr("serving_default")
                      && r.value.path == options.path
    ensures var sigName := options.signatureName.GetOr("serving_default");
            (r == Err(NoSignature(sigName))) <==> sigName !in graph.signatureDefs
  {
    ComputeParams(options, graph, ModelDefaults)
  }

  /** With every option left out, the defaults are used, and a graph that holds
      them under "serving_default" with a plain numeric ids shape is accepted
      with exactly that shape. */
  lemma DefaultOptionsAccepted(graph: PartialMetaGraph, path: string, shape: seq<int>)
    requires "serving_default" in graph.signatureDefs
    requires var sig := graph.signatureDefs["serving_default"];
             && "attention_mask" in sig.inputs && "input_ids" in sig.inputs
             && "output_0" in sig.outputs && "output_1" in sig.outputs
             && |shape| > 0
             && sig.inputs["input_ids"].shape == Some(seq(|shape|, k requires 0 <= k < |shape| => Num(shape[k])))
    ensures var options := ModelOptions(None, ModelInputOverrides(None, None), NoOutputOverrides, path, None);
            var r := LegacyComputeParams(options, graph);
            r.Ok? && !r.value.cased && r.value.shape == seq(|shape|, k requires 0 <= k < |shape| => Num(shape[k]))
  {
    var options := ModelOptions(None, ModelInputOverrides(None, None), NoOutputOverrides, path, None);
    var p := Resolve(options, ModelDefaults);
    assert p.inputsNames.ids == "input_ids" && p.signatureName == "serving_default";
  }
}
