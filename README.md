# node-question-answering: a Dafny model of its core

This project models the core of `node-question-answering`, a Node.js library
that answers a question from a context text with a Transformer model (BERT,
DistilBERT, RoBERTa). The library tokenizes the question and the context,
runs the model in a TensorFlow runtime, local or remote, and picks the best
answer span from the start and end logits.

The model covers these parts:

- **Worker pools.** There are three of them:
  - the FIFO task pool of `runtimes/pool-real.ts`;
  - the single-worker inference queue of `runtimes/pool-single.ts`;
  - the older round-robin pool of `runtimes/pool.ts`.

  Each is a `class` whose fields are the pool's state and whose methods are
  its operations and its event handlers (a worker coming online, a reply on a
  port). Each handler is proved to compute a specification function on a
  state value. The lemmas about those functions carry what the pool
  promises: dispatch order, a busy worker is never handed a second task,
  every promise is settled at most once, and the size bounds.
- **Parameter resolution.** The three `computeParams` of the runtime layer,
  the model layer and the older top-level model: the tensor names and the
  signature come from the options or the defaults, every name is checked
  against the meta-graph, and the shape of the ids input is normalised.
- **`QAClient`.** Answer-span selection in `predict` (the context bounds, the
  stable ranking by probability, the first valid pair, the answer text) and
  `getModelParams`.
- **The tokenizer wrappers.** Index arithmetic on an encoding, and how each
  class resolves its files and special tokens in `fromOptions`.
- **The factories.** `initTokenizer` (`TOKEN_KEYS_MAPPING`, the casing
  heuristic, the configuration-driven token filling) and `initModel`
  (`isSavedModelOptions`, the runtime, the model directory and the model
  class).
- **`utils.ts`.**
  - `getAbsolutePath` and `getHfUrl`.
  - `getVocabConfigKey`.
  - The choice of vocabulary files and the download loop of `getVocab`.
  - The directory and URL rules of `downloadModel`.
- **`RemoteModel`.** How the meta-graph is rebuilt from a TensorFlow Serving
  metadata response, including a model of `parseInt`. The predict request
  and how the logits are read back.

The file system, the network and the tokenizers library are values: a set of
existing paths or a map from path to contents, a function from URL to the
outcome of `fetch` (rejected, not ok, or a body), a given encoding.

The cases where the code evidently does not do what its authors meant are
under "Findings". Each of them is modelled twice: as written, with a lemma that
exhibits the problem, and corrected, with the intended property proved.

Files: `js.dfy` (JavaScript semantics), `metagraph.dfy`, `runtime.dfy`,
`models.dfy`, `tokenizers.dfy`, `tokenizer_factory.dfy`, `model_factory.dfy`,
`utils.dfy`, `remote.dfy`, `pool_real.dfy`, `pool_single.dfy`,
`pool_legacy.dfy`, `qa.dfy`.

## Model

| member | source | states |
|---|---|---|
| MetaGraph.FirstMissing | src/runtimes/runtime.ts:66-76 | the first configured name absent from the signature, in order, or none when all are present |
| MetaGraph.CheckSignature | src/runtimes/runtime.ts:61-76 | rejects a missing signature first, then the first missing input name, then the first missing output name; accepts exactly when all exist |
| MetaGraph.UnboxAll | src/runtimes/runtime.ts:84 | every element replaced by `array[0]` of its box, failing when an element is a plain number |
| MetaGraph.NormalizeShape | src/runtimes/runtime.ts:79-84 | a shape whose first element is a number is kept as is; otherwise every element is unboxed; a missing shape is a TypeError |
| MetaGraph.NormalizedShapeIsNumeric | src/runtimes/runtime.ts:79-84 | a shape of all numbers or all boxes normalises to numbers only, element by element |
| Runtime.ResolveInputNames | src/runtimes/runtime.ts:42-48 | one entry per listed input and nothing else; each is the override when present, otherwise the default |
| Runtime.ComputeParams | src/runtimes/runtime.ts:37-90 | the resolved names, path and signature, and the ids shape of that signature; a missing signature is the first error, then the first input in `options.inputs` order whose name is absent, then (every input being present) the end logits before the start logits |
| Runtime.ComputeParamsSucceedsIff | src/runtimes/runtime.ts:61-89 | success exactly when the signature exists, every configured name is in it, the ids input is configured and its shape normalises |
| Runtime.AsBatch | src/models/tfjs.model.ts:52-58 | whatever the backend returns, the result is a batch (not one-dimensional) |
| Runtime.AsBatchIdempotent | src/models/tfjs.model.ts:52-58 | wrapping twice is wrapping once: a batch passes through unchanged |
| Runtime.OneDimensionalClassifies | src/runtimes/runtime.ts:93-95 | a plain vector is one-dimensional and its wrap is a batch of that vector; a real batch is not one-dimensional |
| Models.ComputeParams | src/models/model.ts:25-75 | success exactly when the signature check and shape normalisation succeed, with the resolved parameters and the ids shape; the errors otherwise |
| Models.LegacyComputeParams | src/model.ts:23-73 | the older model resolves like the model layer, always against the fixed defaults |
| Models.DefaultOptionsAccepted | src/models/model.ts:1-11 | with every option left out, a graph holding the default names under "serving_default" is accepted with its numeric ids shape |
| Tokenizers.AddedTokensBounds | src/tokenizers/tokenizer.ts:50 | a 0/1 special-tokens mask counts between 0 and its length added tokens |
| Tokenizers.QuestionLength | src/tokenizers/bert.tokenizer.ts:59-63 | the index of the first separator minus one (the CLS token), -2 when there is no separator |
| Tokenizers.ContextStartAfterSeparator | src/tokenizers/roberta.tokenizer.ts:106-112 | the context starts right after the first separator (WordPiece) or one token later (RoBERTa's doubled separator) |
| Tokenizers.NoSeparator | src/tokenizers/bert.tokenizer.ts:59-67 | with no separator the question length is -2 and the context starts at 0 (WordPiece) or 1 (RoBERTa) |
| Tokenizers.ContextEndArithmetic | src/tokenizers/tokenizer.ts:49-55 | the end index is the real length plus the class offset minus one, whatever the question length |
| Tokenizers.WordPieceVocabPrecedence | src/tokenizers/bert.tokenizer.ts:26-34 | an explicit truthy path wins, then `dir/vocab.txt` when it exists, then the default; an empty explicit path survives when no file exists |
| Tokenizers.CopyTruthyTokens | src/tokenizers/bert.tokenizer.ts:41-53 | exactly the truthy options among the keys are copied, unchanged |
| Tokenizers.BertFromOptions | src/tokenizers/bert.tokenizer.ts:23-57 | the vocab path by the precedence above, the casing option passed through, and exactly the truthy CLS/mask/pad/SEP/UNK options |
| Tokenizers.DistilbertFromOptions | src/tokenizers/distilbert.tokenizer.ts:10-28 | the same vocab precedence from the model path, and the casing option passed through |
| Tokenizers.RobertaFromOptions | src/tokenizers/roberta.tokenizer.ts:40-104 | a missing vocab file, then a missing merges file, are errors exactly when neither an explicit name nor the file on disk exists; otherwise those files, and each special token the option or its default |
| Tokenizers.RobertaDefaultEos | src/tokenizers/roberta.tokenizer.ts:79-85 | without an EOS option the separator searched for is "</s>" |
| TokenizerFactory.NameLowercase | src/tokenizers/tokenizer.factory.ts:123-129 | true exactly when the lower-cased name contains "uncased"; false when it contains "cased" but not "uncased"; undefined otherwise |
| TokenizerFactory.FillTokens | src/tokenizers/tokenizer.factory.ts:111-120 | options outside the mapping are untouched and a defined option is never overwritten |
| TokenizerFactory.FillTokensExact | src/tokenizers/tokenizer.factory.ts:111-120 | with distinct option names, each mapped option is kept when defined, else filled from a string configuration value, else left undefined |
| TokenizerFactory.TokenKeysDistinct | src/tokenizers/tokenizer.factory.ts:54-70 | `TOKEN_KEYS_MAPPING` sends its six configuration keys to six different options |
| TokenizerFactory.TypePrecedence | src/tokenizers/tokenizer.factory.ts:75-91 | neither a type nor a name is an error; an explicit type wins over the inferred one; the files directory is made absolute |
| TokenizerFactory.LowercasePrecedence | src/tokenizers/tokenizer.factory.ts:104-129 | casing is the explicit option, else a boolean `do_lower_case` (only with a model name), else the name heuristic |
| TokenizerFactory.UncasedContainsCased | src/tokenizers/tokenizer.factory.ts:124-127 | every string containing "uncased" contains "cased", so the "uncased" test must come first |
| TokenizerFactory.NameLowercaseIgnoresCase | src/tokenizers/tokenizer.factory.ts:124-126 | names that lower-case alike get the same casing |
| TokenizerFactory.SpecialTokensFilled | src/tokenizers/tokenizer.factory.ts:93-121 | a token is filled from the configuration only when undefined and the value is a string; without a model name the caller's tokens pass through |
| TokenizerFactory.ConfigOnlyWithModelName | src/tokenizers/tokenizer.factory.ts:93 | without a model name the vocabulary configuration does not affect the options |
| TokenizerFactory.ResolveTokenizerOptions | src/tokenizers/tokenizer.factory.ts:72-129 | the type check, the configuration loop over `TOKEN_KEYS_MAPPING` and the casing steps compute `ResolveOptions`, whose precedence rules are the lemmas above |
| TokenizerFactory.InitTokenizer | src/tokenizers/tokenizer.factory.ts:72-143 | RoBERTa type gives the RoBERTa setup of the resolved options; any other type a BERT tokenizer whose vocab, casing and tokens come from the resolved options; the errors of both paths |
| ModelFactory.ClassInputs | src/models/bert.model.ts:6-10 | every class declares the attention mask then the ids; only BERT adds token type ids |
| ModelFactory.InitModel | src/models/model.factory.ts:76-121 | runtime defaults to SavedModel; a remote model uses its path and downloads nothing; a local one lives under the assets directory with the download plan; class, runtime options, and `workersMax` only for a saved model and when positive |
| ModelFactory.OtherTypesAreDistilbert | src/models/model.factory.ts:105-106 | ELECTRA, DistilBERT and an unknown type are built as DistilBERT |
| ModelFactory.ClassInputsResolveIds | src/models/model.factory.ts:109-115 | the runtime always resolves the ids and attention mask names for every class; token type ids only for BERT |
| Utils.AbsolutePathIsFixed | src/utils.ts:293-299 | under an absolute root every result is absolute, and resolving it again against any root changes nothing |
| Utils.HfUrlSplits | src/utils.ts:285-287 | for a file name without '/', the URL splits back into model and file at its last '/' |
| Utils.HfUrlInjective | src/utils.ts:285-287 | different (model, file) pairs never share a URL when file names hold no '/' |
| Utils.ConfigKeysCover | src/utils.ts:158-161 | the two configuration files fill the two different halves |
| Utils.VocabStore.ResolveVocabFiles | src/utils.ts:204-234 | the files as written and the new shared default, with the aliasing of `vocabFiles = DEFAULT_VOCAB` |
| Utils.VocabStore.ApplyOverridesShared | src/utils.ts:216-224 | each truthy caller name replaces its entry; through the alias the shared default takes every assignment, otherwise it is untouched |
| Utils.VocabStore.AddConfigShared | src/utils.ts:232-234 | both configuration files are added as optional entries, in the shared default too when aliased |
| Utils.FilesFromMapping | src/utils.ts:209-214 | the keys of the type's mapping, in order, each with its file name |
| Utils.AddConfigFilesKeeps | src/utils.ts:232-234 | adding the configuration files never changes another entry |
| Utils.ConfigFilesOptional | src/utils.ts:232-234 | both configuration files are always listed, as optional downloads from the CDN |
| Utils.HfMappedVocabFiles | src/utils.ts:204-207 | a model with a known vocabulary URL gets vocab.txt from that URL plus the configuration files; the caller's names are ignored |
| Utils.RobertaVocabFiles | src/utils.ts:208-224 | RoBERTa without a known URL gets merges.txt and vocab.json, each replaced by the caller's truthy name |
| Utils.DefaultBaseFiles | src/utils.ts:215-224 | any other type without a known URL gets the current default files with the caller's truthy names replacing or adding entries |
| Utils.DefaultVocabFiles | src/utils.ts:182-224 | with a fresh default: vocab.txt or the caller's truthy name, and a merges file only when the caller names one |
| Utils.FirstCallAgrees | src/utils.ts:204-234 | on a pristine default the code as written resolves the same files as the corrected code |
| Utils.SharedDefaultVocabLeaks | src/utils.ts:216-222 | as written, a second BERT model resolved without overrides after one with "custom.txt" is sent for "custom.txt"; the corrected code gives vocab.txt |
| Utils.DownloadVocabFiles | src/utils.ts:236-276 | the loop computes `FetchAll`, stopping at the first throw: a rejected `fetch`, a required file whose response is not ok, or a downloaded configuration text that does not parse |
| Utils.FetchFailureCauses | src/utils.ts:242-262 | every throw is caused by one file: a rejected fetch of its URL, a response that is not ok for a required file, or an unparsable downloaded configuration file when the configuration is asked for |
| Utils.OptionalFilesNeverFail | src/utils.ts:247-262 | with every file optional, no fetch rejected and every downloaded text parsing (when the configuration is asked for), the loop never throws |
| Utils.RejectedFetchThrows | src/utils.ts:247 | a rejected fetch throws even for an optional file |
| Utils.FetchedFilesPresent | src/utils.ts:236-276 | on success every file is on disk, except optional ones whose response was not ok; nothing already on disk is lost |
| Utils.ConfigOnlyWhenAsked | src/utils.ts:259-270 | without `returnConfig` no configuration is recorded and no parse error is thrown |
| Utils.GetVocab | src/utils.ts:186-283 | no model type is an error; otherwise the download loop over the corrected files, its throws passed on, the configuration only when asked for |
| Utils.ModelDir | src/utils.ts:76-79 | the model directory gets a `tfjs` subdirectory exactly for the TFJS format |
| Utils.ModelUrlAvailability | src/utils.ts:319-340 | only distilbert-base-cased-distilled-squad has a TFJS archive; a saved model is always available; an unknown model always gets the saved-model archive |
| Utils.DownloadModelPlan | src/utils.ts:75-131 | nothing is fetched when the TFJS directory, or the saved model's saved_model.pb, exists; otherwise the URL above into the model directory |
| RemoteModel.ParseInt | src/models/remote.model.ts:65 | leading ECMAScript white space and line terminators and one sign skipped, the longest digit run read, NaN without a digit |
| RemoteModel.NatToString | src/models/remote.model.ts:65 | the decimal text of a number is non-empty and made of digits |
| RemoteModel.ParseIntRoundTrip | src/models/remote.model.ts:65 | `parseInt` reads back every integer written in decimal |
| RemoteModel.RemoteShapesNormalize | src/models/remote.model.ts:59-67 | remote shapes are plain numbers or NaN, so normalisation keeps them |
| RemoteModel.RemoteShapesRoundTrip | src/models/remote.model.ts:59-67 | sizes written in decimal come back as those numbers after normalisation |
| RemoteModel.FromOptions | src/models/remote.model.ts:40-45 | the model layer's parameters over the remote graph with the model defaults; a signature that is reserved or missing on the server is a "no signature" error |
| RemoteModel.DefaultServerAccepted | src/models/remote.model.ts:40-85 | a server exposing "serving_default" with the default names and a decimal ids shape is accepted with default options and that shape |
| RemoteModel.PredictInputs | src/models/remote.model.ts:24-27 | the ids and the mask under their configured names; the mask wins when the names coincide |
| RemoteModel.EndpointsDistinct | src/models/remote.model.ts:20-48 | a metadata URL is never a prediction URL, each URL determines its model path, and the request carries the signature name and the attention mask under its name |
| RemoteModel.LogitsRoundTrip | src/models/remote.model.ts:32-37 | logits sent under distinct configured names come back unchanged, in order start then end, whatever else the server adds |
| PoolReal.SettleOnce | src/runtimes/pool-real.ts:375-391 | settling twice is settling once; the first value stays; settling creates no promise and leaves every other promise as it was |
| PoolReal.FirstIdle | src/runtimes/pool-real.ts:401-413 | the index of the first idle worker, or -1 exactly when all are busy |
| PoolReal.SetStatus | src/runtimes/pool-real.ts:437-445 | exactly the first entry with the thread id gets the status; all others unchanged |
| PoolReal.SetStatusUnique | src/runtimes/pool-real.ts:437-445 | with unique thread ids, exactly that worker's entry changes |
| PoolReal.FirstEligible | src/runtimes/pool-real.ts:362-364 | the first task that is a load or whose model is registered, or -1 exactly when none is |
| PoolReal.RemoveAt | src/runtimes/pool-real.ts:370 | the queue without entry i, the rest in order, as a multiset the same minus that entry |
| PoolReal.InitialValid | src/runtimes/pool-real.ts:273-277 | the pool starts with `minThreads` (default 1) idle workers, nothing queued, and the invariant |
| PoolReal.DispatchValid | src/runtimes/pool-real.ts:369-398 | dispatching an eligible task to an idle worker keeps the invariant: that worker leaves busy with exactly one listener |
| PoolReal.RunNextValid | src/runtimes/pool-real.ts:356-399 | `runNextTask` keeps the invariant |
| PoolReal.RunNextCases | src/runtimes/pool-real.ts:356-427 | a task leaves the queue only when dispatched: the first eligible one, to the first idle worker, the queue order kept, an inference with its registered parameters; with no idle worker the pool may grow by one idle worker up to the bound |
| PoolReal.ReleaseValid | src/runtimes/pool-real.ts:389-390 | freeing a worker whose listener has fired and dispatching again keeps the invariant |
| PoolReal.QueueTaskValid | src/runtimes/pool-real.ts:323-354 | the task is appended to the queue with a fresh pending promise, and the invariant is kept |
| PoolReal.HandleReplyValid | src/runtimes/pool-real.ts:375-391 | a reply listener returns its worker to idle, dispatches again, and keeps the invariant |
| PoolReal.OnMessageValid | src/runtimes/pool-real.ts:375-391 | every reply keeps the invariant |
| PoolReal.OnOnlineValid | src/runtimes/pool-real.ts:452-456 | the corrected online handler keeps the invariant |
| PoolReal.LoadReplyRegisters | src/runtimes/pool-real.ts:376-384 | a load reply registers the model even with an error; its promise is rejected on an error and resolved otherwise |
| PoolReal.InferReplyResolves | src/runtimes/pool-real.ts:376-387 | an inference reply resolves with the logits or rejects, and leaves the registry alone |
| PoolReal.OnlineAsWrittenDoubleDispatch | src/runtimes/pool-real.ts:452-456 | as written, with the defaults, a load queued before worker 0 comes online and a second load both go to worker 0, whose one reply settles both promises |
| PoolReal.OnlineFixedSeparatesTasks | src/runtimes/pool-real.ts:452-456 | with the corrected handler, worker 0 stays busy and the second load goes to a new worker 1 |
| PoolReal.Pool.constructor | src/runtimes/pool-real.ts:273-277 | the state is the initial pool for the given options |
| PoolReal.Pool.AddWorker | src/runtimes/pool-real.ts:447-470 | one idle worker with a fresh thread id appended |
| PoolReal.Pool.GetWorker | src/runtimes/pool-real.ts:401-435 | the first idle worker, or none after possibly growing the pool |
| PoolReal.Pool.ToggleWorkerStatus | src/runtimes/pool-real.ts:437-445 | the scan sets the status of the first entry with the thread id |
| PoolReal.Pool.RunNextTask | src/runtimes/pool-real.ts:356-399 | the state becomes `RunNext` of the old state; the invariant is kept |
| PoolReal.Pool.QueueTask | src/runtimes/pool-real.ts:323-354 | the state becomes `QueueTaskSpec` of the old state; the returned handle is the new pending promise |
| PoolReal.Pool.OnOnline | src/runtimes/pool-real.ts:452-456 | the corrected online event: a dispatch attempt only, the invariant kept |
| PoolReal.Pool.HandleTaskReply | src/runtimes/pool-real.ts:375-391 | one once-listener: the settlement, the registry update for a load, the worker freed, a new dispatch |
| PoolReal.Pool.OnMessage | src/runtimes/pool-real.ts:375-391 | all once-listeners registered on the worker are removed and called in order; the invariant is kept |
| PoolSingle.FirstRunnable | src/runtimes/pool-single.ts:206-212 | the index of the first queued task whose model is loaded, or -1 exactly when there is none |
| PoolSingle.SpliceOne | src/runtimes/pool-single.ts:231 | exactly entry i leaves the queue (one shorter, the same multiset minus that entry); past the end nothing is removed |
| PoolSingle.InitialInv | src/runtimes/pool-single.ts:35-47 | a new worker has an empty queue, nothing running, id counter 0, and the invariant |
| PoolSingle.RunCases | src/runtimes/pool-single.ts:195-250 | nothing happens while an inference is in flight; otherwise the first runnable task is posted with one reply listener, or `running` is reset |
| PoolSingle.IdsUnique | src/runtimes/pool-single.ts:180 | task ids in the queue are unique |
| PoolSingle.QueueInferenceInv | src/runtimes/pool-single.ts:174-193 | a new task gets the next id, which no queued task has, with a pending promise; the invariant is kept |
| PoolSingle.OnReplyInv | src/runtimes/pool-single.ts:215-236 | a reply for another id is ignored; the in-flight task's reply settles its promise, removes exactly that task and keeps the invariant |
| PoolSingle.OnLoadedStarts | src/runtimes/pool-single.ts:71-74 | a model reported loaded starts an inference when one of its tasks is queued and nothing is in flight |
| PoolSingle.OnLoadedInv | src/runtimes/pool-single.ts:71-74 | the load report keeps the invariant |
| PoolSingle.FireCloseEffect | src/runtimes/pool-single.ts:58-59 | the close listeners post the deferred loads in order, and set `loaded` when the online listener is among them |
| PoolSingle.LoadModelPostsIffLoaded | src/runtimes/pool-single.ts:94-102 | a load is posted at once exactly when the worker is loaded; otherwise it waits for the init port to close |
| PoolSingle.DeferredLoadsFlushed | src/runtimes/pool-single.ts:58-102 | loads requested before the worker is loaded are posted in order when the init port closes; later ones are posted at once |
| PoolSingle.SavedModelWorker.constructor | src/runtimes/pool-single.ts:44-75 | the state is the initial worker state |
| PoolSingle.SavedModelWorker.Run | src/runtimes/pool-single.ts:195-250 | the scan loop computes `RunSpec` of the old state |
| PoolSingle.SavedModelWorker.QueueInference | src/runtimes/pool-single.ts:174-193 | the state becomes `QueueInferenceSpec`; the returned id keys the new promise |
| PoolSingle.SavedModelWorker.OnInferenceReply | src/runtimes/pool-single.ts:215-236 | the state becomes `OnReplySpec` of the old state; the invariant is kept |
| PoolSingle.SavedModelWorker.SettleInFlight | src/runtimes/pool-single.ts:223-232 | the in-flight promise is resolved with the logits or rejected with the error, the task is spliced out and the worker is idle |
| PoolSingle.SavedModelWorker.OnModelLoaded | src/runtimes/pool-single.ts:71-74 | the model is recorded and `run` is attempted |
| PoolSingle.SavedModelWorker.LoadModel | src/runtimes/pool-single.ts:94-102 | the load is posted or deferred to the close of the init port |
| PoolSingle.SavedModelWorker.OnOnline | src/runtimes/pool-single.ts:58-69 | a close listener marking the worker loaded, and the init message posted |
| PoolSingle.SavedModelWorker.OnInitPortClose | src/runtimes/pool-single.ts:58-59 | the close listeners run in registration order |
| PoolLegacy.FirstZero | src/runtimes/pool.ts:161-166 | the first worker with no request outstanding, or -1 exactly when none |
| PoolLegacy.Outcome | src/runtimes/pool.ts:150-151 | every reply settles its request: the outcome is never pending |
| PoolLegacy.OutcomeTruthiness | src/runtimes/pool.ts:150-151 | a non-empty error rejects with that message; an empty or absent one resolves with the logits; a later reply for the same id changes nothing |
| PoolLegacy.RemoveMembers | src/runtimes/pool.ts:145-153 | removing the listeners for one id on one worker keeps every other listener |
| PoolLegacy.RemoveCount | src/runtimes/pool.ts:145-153 | each removed listener takes one request off its worker's count |
| PoolLegacy.RemoveIncreasing | src/runtimes/pool.ts:131 | since ids increase, at most one listener is removed and the rest keep increasing ids |
| PoolLegacy.InitialValid | src/runtimes/pool.ts:110-114 | `minThreads` (default 1) idle workers, the cursor and counter at 0, and the invariant |
| PoolLegacy.ChooseCases | src/runtimes/pool.ts:159-194 | the first idle worker; else in a full pool the next one round-robin, wrapping to 0; else a new worker; no worker only for an empty pool with `maxThreads` 0 |
| PoolLegacy.RunInferenceValid | src/runtimes/pool.ts:122-140 | the request gets the next id, above every earlier one, a pending promise, its worker's count up by one and the message posted; without a worker it is rejected; the invariant is kept |
| PoolLegacy.ReplyValid | src/runtimes/pool.ts:145-153 | a reply for an outstanding request removes exactly it, decrements the count by one and settles once; any other reply changes nothing |
| PoolLegacy.OnPortMessageValid | src/runtimes/pool.ts:145-190 | the kill listener, then the reply listeners: one outstanding request settled once, the invariant kept |
| PoolLegacy.ReplyHandledOnce | src/runtimes/pool.ts:145-153 | a reply delivered twice is handled once |
| PoolLegacy.FirstIdIsOne | src/runtimes/pool.ts:131 | request ids come from `++_id`, the first being 1 |
| PoolLegacy.MinAboveMaxGrows | src/runtimes/pool.ts:110-114 | with `minThreads` 2 and `maxThreads` 1, a request finding no free worker adds a third worker |
| PoolLegacy.Pool.constructor | src/runtimes/pool.ts:110-114 | the state is the initial pool for the options |
| PoolLegacy.Pool.NewWorker | src/runtimes/pool.ts:196-210 | one worker appended with a count of zero |
| PoolLegacy.Pool.ChooseWorker | src/runtimes/pool.ts:159-194 | the scan loop computes `ChooseSpec` of the old state |
| PoolLegacy.Pool.RunInference | src/runtimes/pool.ts:122-140 | the state becomes `RunInferenceSpec` of the old state; the returned id keys the promise |
| PoolLegacy.Pool.OnPortMessage | src/runtimes/pool.ts:145-190 | the state becomes `OnPortMessageSpec` of the old state; the invariant is kept |
| PoolLegacy.Pool.FireReplyListeners | src/runtimes/pool.ts:145-153 | the reply listeners run in registration order |
| QA.FindAfter | src/qa.ts:136-138 | the first index after `after` holding the value, or -1 exactly when there is none |
| QA.ContextBounds | src/qa.ts:136-138 | the first type-1 index, and one before the first later type-0 index (-2 when none) |
| QA.SortByProb | src/qa.ts:144 | a permutation of the candidates |
| QA.SortOrdered | src/qa.ts:140-145 | sorting position-ordered candidates gives probability descending, ties in position order, and a permutation |
| QA.Candidates | src/qa.ts:140-145 | the ranked candidates of the context slice, each paired with its position |
| QA.CandidatePositions | src/qa.ts:142-143 | every candidate is a position inside the slice, carrying that position's probability |
| QA.ContextCandidates | src/qa.ts:136-145 | the ranked positions lie in the context but its last token, where the type id is not 0; with no later type-0 token the slice drops the last two positions |
| QA.FirstValidUnique | src/qa.ts:147-155 | there is only one first valid (start, end) pair |
| QA.FindSpan | src/qa.ts:147-169 | the first pair in rank order whose end is not before its start and whose span has at most `maxAnswerLength` tokens, or none exactly when no pair is valid |
| QA.ChooseAnswer | src/qa.ts:147-171 | null exactly when no pair is valid, otherwise the answer of the first valid pair |
| QA.SpanTokensInRange | src/qa.ts:157-161 | inside the token array the span is exactly the inclusive slice |
| QA.GatherText | src/qa.ts:157-161 | the loop pushes the tokens from start to end inclusive |
| QA.SplitJoin | src/qa.ts:165 | joining tokens without spaces by single spaces loses nothing: splitting gives them back |
| QA.Predict | src/qa.ts:105-172 | the answer is the first valid pair of the ranked candidates, the span's tokens joined by spaces, scored by the product of the probabilities, and null exactly when no pair is valid |
| QA.AnswerSpan | src/qa.ts:147-167 | an answer spans 1 to `maxAnswerLength` tokens, start before end, and its text reads back as those tokens |
| QA.ResolvedMatchesModelLayer | src/qa.ts:178-192 | each name and the signature resolve as the model layer resolves them against `MODEL_DEFAULTS`; with no option set they are `DEFAULT_MODEL`'s |
| QA.GetModelParamsAsWritten | src/qa.ts:194-216 | the code as written: a missing signature, then the property keys checked against the signature, then the shape of the configured ids name |
| QA.GetModelParams | src/qa.ts:174-216 | the corrected check: success exactly when the signature and every configured name exist, with the ids input's raw shape |
| QA.ClientModelParamsAsWritten | src/qa.ts:86-93 | as written: `DEFAULT_MODEL` without model options, otherwise the as-written check on the first meta-graph of the bundled MODEL_PATH, keeping the custom path |
| QA.ClientAsWrittenReadsBundledGraph | src/qa.ts:91 | as written the result depends only on the bundled directory's meta-graphs, never on the custom model's own |
| QA.ClientAsWrittenRejectsEveryModel | src/qa.ts:89-92 | with the bundled graph holding the default names, every custom model is rejected, for a missing signature or for a missing "attentionMask" input |
| QA.ClientModelParams | src/qa.ts:86-95 | corrected: `DEFAULT_MODEL` without model options, otherwise success exactly when the first meta-graph of the custom model's own path holds its signature and every configured name, with that graph's ids shape |
| QA.CustomModelAcceptedWhenFixed | src/qa.ts:89-95 | corrected, a custom model with the default names is accepted from its own graph, whatever the bundled graph holds |
| QA.DefaultGraphRejectedAsWritten | src/qa.ts:199-203 | with no option set and a graph holding exactly the default names, the code as written rejects it for lacking an input "attentionMask"; the corrected check accepts it |

## Left out

- The worker threads themselves: the model loading and inference requests
  run in another thread, and their replies are method calls on the pools.
  There is no real concurrency. Event order is the order of the calls.
- The pools' `destroy`, the error and exit handler callbacks, and the
  `onlineHandler` callback. These only forward to the caller.
- The `loaded()` handshake of pool.ts's worker class. It blocks on a message
  that the model treats as already received.
- The "FullPool" event that pool.ts emits.
- `maxTasks` (a listener limit of Node's event emitter). It does not affect
  the scheduling.
- `QAClient.fromOptions`: the loading of the saved model and of the
  tokenizer. `ClientModelParamsAsWritten` models its parameter choice, and
  `ClientModelParams` its correction.
- `softMax` and the rounding of the score in `predict`. They are floating
  point. The score is modelled as the exact product of the two
  probabilities, and the probabilities are inputs.
- The tokenizers library (`encode`, padding, truncation, the post-processor
  and the special-token registration). An encoding is an input.
- `getModelType`. Its result is an input of the factories and of
  `getVocab`.
- `JSON.parse` of the configuration files:
  - `getVocab` records the raw text of each file read, and which texts parse
    is an input predicate;
  - `initTokenizer` receives the parsed configuration as a value.
- Utils.GetVocab: a throw returns only the error. The file that was written
  just before an unparsable configuration text threw stays on disk in the
  source; the model does not return that disk.
- Utils.GetVocab: a failed `readFile` or `writeFile` is not modelled. Reading
  an existing configuration file can only fail to parse, which the source
  catches.
- Js.PathJoin: `path.join` normalises its result and the model does not. It
  does not collapse repeated "/", and it keeps "." and ".." segments, so "d/"
  and "vocab.txt" give "d//vocab.txt". Every existence check on a joined path
  (tokenizer files, vocabulary files, model directories) compares these
  unnormalised paths.
- Js.Lower: `toLocaleLowerCase` is modelled as ASCII lower-casing, with no
  locale and no non-ASCII letters. No other character lower-cases into the
  letters of "cased", so the casing inferred from a model name is the same.
- RemoteModel.ParseSignature: an input with no `tensor_shape.dim`, which is a
  TypeError in the source, cannot be written as a `RawTensor`. Each raw
  input always carries a list of sizes.
- The JavaScript prototype keys of the mapping objects (such as
  `HF_MODELS_MAPPING["constructor"]`). Lookups are modelled as on plain
  maps.
- RemoteModel.ParseInt: the hexadecimal "0x" prefix of `parseInt` is not
  modelled. Only decimal text is read, and dimension sizes are decimal.
- RemoteModel.PredictInputs: the body is a list of entries. The
  JSON serialisation and the HTTP call are not modelled.
- `downloadModel`:
  - `ensureDir`, the progress bar and the tar extraction are left out;
  - Utils.DownloadModelPlan returns what would be fetched and where, not the
    new contents of the disk.
- `downloadModelWithVocab` (a CLI helper that combines the two downloads).
- The `runInference` of the model and runtime classes beyond the remote
  model's request and response shaping, and the ELECTRA model class, which
  `initModel` never builds.
- The TFJS and SavedModel runtime `fromOptions`. They share
  `Runtime.computeParams`, which is modelled.
- Utils.GetVocab is modelled on the corrected vocabulary files
  (`VocabFilesFor`). The as-written resolution, which mutates the shared
  default, is modelled separately by Utils.VocabStore.ResolveVocabFiles.
- PoolReal.Pool.OnOnline is the corrected handler. The handler as written
  is modelled as the function `OnOnlineAsWritten`, and its consequence is
  proved in PoolReal.OnlineAsWrittenDoubleDispatch.

## Findings

| source | as written | input that shows it | evidently intended | confidence | as-written member | corrected member |
|---|---|---|---|---|---|---|
| src/runtimes/pool-real.ts:452-456 | the "online" handler marks its worker idle unconditionally | default pool; a load queued before worker 0's online event goes to worker 0; online frees it; a second load is handed to the busy worker 0, and its one reply settles both promises | a worker enters the table idle, so coming online should only trigger a dispatch attempt | not executed | PoolReal.OnlineAsWrittenDoubleDispatch | PoolReal.OnlineFixedSeparatesTasks |
| src/qa.ts:199-209 | `for ... in` checks the property keys ("attentionMask", "ids", "startLogits", "endLogits") against the signature instead of the configured names | model options that set only the path, and a graph with exactly the default names "attention_mask", "input_ids", "output_0", "output_1" under "serving_default": rejected with "No input matching name attentionMask" | check the configured names, as the error messages and the defaults suggest | not executed | QA.DefaultGraphRejectedAsWritten | QA.GetModelParams |
| src/utils.ts:216-222 | `vocabFiles = DEFAULT_VOCAB` aliases the module-level default, and the overrides are then written into it | getVocab for "my-bert" (BERT, no known URL) with vocabFile "custom.txt", then for "other-bert" without overrides: the second call fetches "custom.txt" | start each call from a fresh copy of the default files | not executed | Utils.SharedDefaultVocabLeaks | Utils.VocabFilesFor |
| src/qa.ts:89-92 | with model options, `fromOptions` reads the meta-graph of the bundled MODEL_PATH and checks the custom model's names against it, then loads the custom `path` | a custom model at "custom" whose own graph has signature "my_sig" and all its names, options with signatureName "my_sig", and a bundled graph holding only "serving_default": rejected with "No signature matching name my_sig" | read the meta-graph of `options.model.path`, the model that is then loaded | not executed | QA.ClientAsWrittenRejectsEveryModel | QA.ClientModelParams |
