/** `initModel` and `isSavedModelOptions` of model.factory.ts: which runtime,
    which model directory, which model class and which runtime options a
    model is built with. `getModelType` and the file system are inputs; the
    download itself is the plan of `downloadModel`. */
module ModelFactory {
  import opened Js
  import opened Runtime
  import M = Models
  import Utils

  /** `RuntimeType` */
  datatype RuntimeType = Remote | SavedModel | Tfjs

  /** The classes `initModel` can build. */
  datatype ModelClass = BertModel | DistilbertModel | RobertaModel

  /** The static `inputs` list of each class. */
  function ClassInputs(c: ModelClass): (inputs: seq<ModelInput>)
    ensures |inputs| >= 2 && inputs[..2] == [AttentionMask, Ids]
    ensures TokenTypeIds in inputs <==> c == BertModel
  {
    match c
    case BertModel => [AttentionMask, Ids, TokenTypeIds]
    case DistilbertModel => [AttentionMask, Ids]
    case RobertaModel => [AttentionMask, Ids]
  }

  /** `ModelFactoryOptions`; `path` is required by the types when the runtime
      is Remote. */
  datatype FactoryOptions = FactoryOptions(
    inputsNames: M.ModelInputOverrides, name: string, outputsNames: OutputOverrides,
    runtime: Option<RuntimeType>, signatureName: Option<string>, modelType: Option<M.ModelType>,
    path: Option<string>, workersMax: Option<int>)

  /** What `initModel` settles on before the runtime and the model are loaded. */
  datatype ModelSetup = ModelSetup(
    runtime: RuntimeType, modelDir: string, download: Option<Utils.DownloadPlan>,
    modelClass: ModelClass, runtimeOptions: RuntimeOptions, workersMax: Option<int>)

  /** `isSavedModelOptions(options)` */
  predicate IsSavedModelOptions(options: FactoryOptions) {
    options.runtime.None? || options.runtime == Some(SavedModel)
  }

  /** The class for a model type: RoBERTa and BERT have their own, every other
      type (and an unknown one) is DistilBERT. */
  function ChooseClass(modelType: Option<M.ModelType>): ModelClass {
    if modelType == Some(M.Roberta) then RobertaModel
    else if modelType == Some(M.Bert) then BertModel
    else DistilbertModel
  }

  /** `initModel(options)`, with `inferredType` for `getModelType(options.name)`
      and `existing` the paths on disk. */
  method InitModel(options: FactoryOptions, inferredType: Option<M.ModelType>, assetsDir: string,
                   existing: set<string>)
    returns (r: Result<ModelSetup, Utils.DownloadError>)
    requires options.runtime == Some(Remote) ==> options.path.Some?
    // the runtime defaults to SavedModel
    ensures r.Ok? ==> r.value.runtime == options.runtime.GetOr(SavedModel)
    // a remote model is served from its path, nothing is downloaded
    ensures options.runtime == Some(Remote) ==>
              r.Ok? && r.value.modelDir == options.path.value && r.value.download.None?
    // a local model lives under the assets directory and is downloaded there first
    ensures options.runtime != Some(Remote) ==>
              var dir := PathJoin(Utils.GetAbsolutePath(options.path, assetsDir), options.name);
              var format := if options.runtime == Some(Tfjs) then Utils.TfjsFormat else Utils.SavedModelFormat;
              var plan := Utils.DownloadModelPlan(dir, options.name, format, existing);
              && (r.Err? <==> plan.Err?)
              && (r.Err? ==> r.error == plan.error)
              && (r.Ok? ==> r.value.modelDir == dir && r.value.download == Some(plan.value))
    // the class follows the explicit or inferred type, and the runtime gets its inputs
    ensures r.Ok? ==>
              && r.value.modelClass == ChooseClass(if options.modelType.Some? then options.modelType else inferredType)
              && r.value.runtimeOptions == RuntimeOptions(
                   ClassInputs(r.value.modelClass),
                   InputOverrides(options.inputsNames.attentionMask, options.inputsNames.ids, None),
                   options.outputsNames, r.value.modelDir, options.signatureName)
    // workersMax is forwarded only for a saved model, and only when positive
    ensures r.Ok? ==>
              (r.value.workersMax.Some? <==>
                 IsSavedModelOptions(options) && options.workersMax.Some? && options.workersMax.value > 0)
              && (r.value.workersMax.Some? ==> r.value.workersMax == options.workersMax)
  {
    var runtimeType := options.runtime.GetOr(SavedModel);
    var modelDir: string;
    var download: Option<Utils.DownloadPlan> := None;
    if options.runtime != Some(Remote) {
      var assetsPath := Utils.GetAbsolutePath(options.path, assetsDir);
      modelDir := PathJoin(assetsPath, options.name);
      if runtimeType != Remote {
        var format := if runtimeType == Tfjs then Utils.TfjsFormat else Utils.SavedModelFormat;
        match Utils.DownloadModelPlan(modelDir, options.name, format, existing)
        case Err(e) =>
          return Err(e);
        case Ok(plan) =>
          download := Some(plan);
      }
    } else {
      modelDir := options.path.value;
    }

    var modelType := if options.modelType.Some? then options.modelType else inferredType;
    var modelClass := ChooseClass(modelType);

    var runtimeOptions := RuntimeOptions(
      ClassInputs(modelClass),
      InputOverrides(options.inputsNames.attentionMask, options.inputsNames.ids, None),
      options.outputsNames, modelDir, options.signatureName);
    var workersMax: Option<int> := None;
    if IsSavedModelOptions(options) {
      if options.workersMax.Some? && options.workersMax.value > 0 {
        workersMax := options.workersMax;
      }
    }
    r := Ok(ModelSetup(runtimeType, modelDir, download, modelClass, runtimeOptions, workersMax));
  }

  /** ELECTRA, and a name whose type cannot be inferred, are built as
      DistilBERT. */
  lemma OtherTypesAreDistilbert(modelType: Option<M.ModelType>)
    requires modelType == Some(M.Electra) || modelType == Some(M.Distilbert) || modelType.None?
    ensures ChooseClass(modelType) == DistilbertModel
  {
  }

  /** Every class declares the ids input, so the runtime's parameters always
      resolve a name for it, whatever the overrides; only BERT resolves token
      type ids. */
  lemma ClassInputsResolveIds(c: ModelClass, overrides: InputOverrides)
    ensures var m := ResolveInputNames(ClassInputs(c), overrides, Defaults.inputsNames);
            && Ids in m && AttentionMask in m
            && m[Ids] == overrides.ids.GetOr("input_ids")
            && (TokenTypeIds in m <==> c == BertModel)
  {
    assert Ids == ClassInputs(c)[..2][1];
    assert AttentionMask == ClassInputs(c)[..2][0];
  }
}
