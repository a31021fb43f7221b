/** The path, URL and vocabulary helpers of utils.ts: `getAbsolutePath`,
    `getHfUrl`, `getVocabConfigKey`, the choice of vocabulary files and the
    download loop of `getVocab`, and the directory and URL rules of
    `downloadModel`. File system and network are values: the set of existing
    paths or a map from path to contents, and a function from URL to the
    settled outcome of `fetch`. */
module Utils {
  import opened Js
  import opened Models

  /* ---------------------------------------------------------------------- */
  /* Paths and URLs                                                          */
  /* ---------------------------------------------------------------------- */

  /** `getAbsolutePath(pathToCheck, rootDir)` */
  function GetAbsolutePath(pathToCheck: Option<string>, rootDir: string): string {
    if !Truthy(pathToCheck) then rootDir
    else if IsAbsolute(pathToCheck.value) then pathToCheck.value
    else PathJoin(rootDir, pathToCheck.value)
  }

  /** Under an absolute root every result is absolute, and resolving it again,
      against any root, changes nothing. */
  lemma AbsolutePathIsFixed(pathToCheck: Option<string>, rootDir: string, otherRoot: string)
    requires IsAbsolute(rootDir)
    ensures IsAbsolute(GetAbsolutePath(pathToCheck, rootDir))
    ensures GetAbsolutePath(Some(GetAbsolutePath(pathToCheck, rootDir)), otherRoot)
            == GetAbsolutePath(pathToCheck, rootDir)
  {
    var r := GetAbsolutePath(pathToCheck, rootDir);
    if Truthy(pathToCheck) && !IsAbsolute(pathToCheck.value) {
      assert r == rootDir + "/" + pathToCheck.value;
      assert r[..1] == rootDir[..1];
    }
  }

  const HfCdn := "https://cdn.huggingface.co/"

  /** `getHfUrl(model, file)` */
  function GetHfUrl(model: string, file: string): string {
    HfCdn + model + "/" + file
  }

  /** `s.lastIndexOf(c)`: the last index holding `c`, or -1. */
  function LastIndexOf(s: string, c: char): (r: int)
    ensures -1 <= r < |s|
    ensures r >= 0 ==> s[r] == c && c !in s[r + 1..]
    ensures r == -1 ==> c !in s
  {
    if s == [] then -1
    else if s[|s| - 1] == c then |s| - 1
    else
      var r := LastIndexOf(s[..|s| - 1], c);
      assert s == s[..|s| - 1] + [s[|s| - 1]];
      r
  }

  lemma {:induction false} LastSlashOfJoin(model: string, file: string)
    requires '/' !in file
    ensures LastIndexOf(model + "/" + file, '/') == |model|
  {
    if file != [] {
      var s := model + "/" + file;
      var file' := file[..|file| - 1];
      assert s[..|s| - 1] == model + "/" + file';
      assert s[|s| - 1] == file[|file| - 1];
      LastSlashOfJoin(model, file');
    }
  }

  /** A model name may contain '/' (an author prefix), a file name does not:
      the URL then splits back into both at its last '/'. */
  lemma HfUrlSplits(model: string, file: string)
    requires '/' !in file
    ensures var rest := GetHfUrl(model, file)[|HfCdn|..];
            var k := LastIndexOf(rest, '/');
            0 <= k && rest[..k] == model && rest[k + 1..] == file
  {
    LastSlashOfJoin(model, file);
    var rest := GetHfUrl(model, file)[|HfCdn|..];
    assert rest == model + "/" + file;
    assert rest[..|model|] == model;
  }

  /** Hence different files of different models never share a URL. */
  lemma HfUrlInjective(m1: string, f1: string, m2: string, f2: string)
    requires '/' !in f1 && '/' !in f2
    requires GetHfUrl(m1, f1) == GetHfUrl(m2, f2)
    ensures m1 == m2 && f1 == f2
  {
    HfUrlSplits(m1, f1);
    HfUrlSplits(m2, f2);
  }

  /* ---------------------------------------------------------------------- */
  /* Vocabulary files                                                        */
  /* ---------------------------------------------------------------------- */

  /** The two halves of the vocabulary configuration. */
  datatype ConfigKey = TokenizerKey | TokensMappingKey

  const TokenizerConfigFile := "tokenizer_config.json"
  const SpecialTokensMapFile := "special_tokens_map.json"

  /** `VOCAB_CONFIG_KEYS` */
  const VocabConfigKeys: seq<string> := [TokenizerConfigFile, SpecialTokensMapFile]

  /** `getVocabConfigKey(filename)` */
  function GetVocabConfigKey(filename: string): ConfigKey {
    if filename == TokenizerConfigFile then TokenizerKey else TokensMappingKey
  }

  /** The two configuration files fill the two different halves. */
  lemma ConfigKeysCover()
    ensures GetVocabConfigKey(VocabConfigKeys[0]) == TokenizerKey
    ensures GetVocabConfigKey(VocabConfigKeys[1]) == TokensMappingKey
  {
  }

  /** One entry of `vocabFiles`. */
  datatype VocabFile = VocabFile(name: string, url: Option<string>, optional: bool)

  /** `vocabFiles`, keyed by "vocabFile", "mergesFile" or a configuration file name. */
  type VocabFiles = Obj<VocabFile>

  /** `DEFAULT_VOCAB` as the module defines it. */
  const DefaultVocab: VocabFiles := [("vocabFile", VocabFile("vocab.txt", None, false))]

  /** `VOCAB_MAPPING[modelType]` */
  function VocabMapping(modelType: ModelType): Option<seq<(string, string)>> {
    if modelType == Roberta then Some([("mergesFile", "merges.txt"), ("vocabFile", "vocab.json")]) else None
  }

  /** `HF_VOCAB_FILES_MAPPING` */
  const HfVocabFilesMapping: map<string, string> := map[
    "distilbert-base-uncased-distilled-squad" :=
      "https://s3.amazonaws.com/models.huggingface.co/bert/bert-large-uncased-vocab.txt",
    "distilbert-base-cased-distilled-squad" :=
      "https://s3.amazonaws.com/models.huggingface.co/bert/bert-large-cased-vocab.txt",
    "bert-large-uncased-whole-word-masking-finetuned-squad" :=
      "https://s3.amazonaws.com/models.huggingface.co/bert/bert-large-uncased-whole-word-masking-finetuned-squad-vocab.txt",
    "bert-large-cased-whole-word-masking-finetuned-squad" :=
      "https://s3.amazonaws.com/models.huggingface.co/bert/bert-large-cased-whole-word-masking-finetuned-squad-vocab.txt"
  ]

  /** The copy of a `VOCAB_MAPPING` entry, key by key. */
  function FromMapping(mapping: seq<(string, string)>): VocabFiles {
    if mapping == [] then []
    else
      var last := mapping[|mapping| - 1];
      Put(FromMapping(mapping[..|mapping| - 1]), last.0, VocabFile(last.1, None, false))
  }

  /** The caller's file names, in the order the override loop visits them. */
  function Overrides(mergesFile: Option<string>, vocabFile: Option<string>): seq<(string, Option<string>)> {
    [("mergesFile", mergesFile), ("vocabFile", vocabFile)]
  }

  /** Each truthy override replaces (or adds) its entry. */
  function ApplyOverrides(files: VocabFiles, overrides: seq<(string, Option<string>)>): VocabFiles {
    if overrides == [] then files
    else
      var last := overrides[|overrides| - 1];
      PutIf(ApplyOverrides(files, overrides[..|overrides| - 1]), last.0, last.1)
  }

  /** Each configuration file is added as an optional download. */
  function AddConfigFiles(files: VocabFiles, names: seq<string>): VocabFiles {
    if names == [] then files
    else
      var last := names[|names| - 1];
      Put(AddConfigFiles(files, names[..|names| - 1]), last, VocabFile(last, None, true))
  }

  /** Whether `getVocab` works on the shared `DEFAULT_VOCAB` object itself. */
  predicate UsesDefaultVocab(modelName: string, modelType: ModelType) {
    modelName !in HfVocabFilesMapping && VocabMapping(modelType).None?
  }

  /** The entries `getVocab` sets up before the configuration files, starting
      from `defaultVocab` as the current contents of `DEFAULT_VOCAB`. */
  function BaseFiles(defaultVocab: VocabFiles, modelName: string, modelType: ModelType,
                     mergesFile: Option<string>, vocabFile: Option<string>): VocabFiles
  {
    if modelName in HfVocabFilesMapping then
      [("vocabFile", VocabFile("vocab.txt", Some(HfVocabFilesMapping[modelName]), false))]
    else
      var start := match VocabMapping(modelType)
                   case Some(m) => FromMapping(m)
                   case None => defaultVocab;
      ApplyOverrides(start, Overrides(mergesFile, vocabFile))
  }

  /** The files `getVocab` resolves. */
  function VocabFilesFrom(defaultVocab: VocabFiles, modelName: string, modelType: ModelType,
                          mergesFile: Option<string>, vocabFile: Option<string>): VocabFiles
  {
    AddConfigFiles(BaseFiles(defaultVocab, modelName, modelType, mergesFile, vocabFile), VocabConfigKeys)
  }

  /** The resolution as written: the files, and the new contents of the shared
      `DEFAULT_VOCAB`, which is the very object that was filled in when it was
      used. */
  function VocabFilesAsWritten(defaultVocab: VocabFiles, modelName: string, modelType: ModelType,
                               mergesFile: Option<string>, vocabFile: Option<string>): (VocabFiles, VocabFiles)
  {
    var files := VocabFilesFrom(defaultVocab, modelName, modelType, mergesFile, vocabFile);
    (files, if UsesDefaultVocab(modelName, modelType) then files else defaultVocab)
  }

  /** The resolution with a fresh copy of `DEFAULT_VOCAB` on every call: what
      the rest of the model uses. */
  function VocabFilesFor(modelName: string, modelType: ModelType,
                         mergesFile: Option<string>, vocabFile: Option<string>): VocabFiles
  {
    VocabFilesFrom(DefaultVocab, modelName, modelType, mergesFile, vocabFile)
  }

  /** The module-level state `getVocab` reads and, as written, writes. */
  class VocabStore {
    var defaultVocab: VocabFiles

    constructor()
      ensures defaultVocab == DefaultVocab
    {
      defaultVocab := DefaultVocab;
    }

    /** The building of `vocabFiles` in `getVocab`, with `vocabFiles =
        DEFAULT_VOCAB` as an alias: every keyed assignment then also lands in
        the shared object. */
    method ResolveVocabFiles(modelName: string, modelType: ModelType,
                             mergesFile: Option<string>, vocabFile: Option<string>)
      returns (files: VocabFiles)
      modifies this
      ensures (files, defaultVocab)
              == VocabFilesAsWritten(old(defaultVocab), modelName, modelType, mergesFile, vocabFile)
    {
      var aliased := UsesDefaultVocab(modelName, modelType);
      if modelName in HfVocabFilesMapping {
        files := [("vocabFile", VocabFile("vocab.txt", Some(HfVocabFilesMapping[modelName]), false))];
      } else {
        var mapping := VocabMapping(modelType);
        var start: VocabFiles;
        if mapping.Some? {
          start := FilesFromMapping(mapping.value);
        } else {
          start := defaultVocab;
        }
        files := ApplyOverridesShared(start, Overrides(mergesFile, vocabFile), aliased);
      }
      assert files == BaseFiles(old(defaultVocab), modelName, modelType, mergesFile, vocabFile);
      files := AddConfigShared(files, aliased);
    }

    /** The override loop of `getVocab`; when `aliased`, `files` is the shared
        object and each assignment also lands there. */
    method ApplyOverridesShared(start: VocabFiles, overrides: seq<(string, Option<string>)>, aliased: bool)
      returns (files: VocabFiles)
      requires aliased ==> defaultVocab == start
      modifies this
      ensures files == ApplyOverrides(start, overrides)
      ensures defaultVocab == if aliased then files else old(defaultVocab)
    {
      files := start;
      var j := 0;
      while j < |overrides|
        invariant 0 <= j <= |overrides|
        invariant files == ApplyOverrides(start, overrides[..j])
        invariant defaultVocab == if aliased then files else old(defaultVocab)
      {
        assert overrides[..j + 1][..j] == overrides[..j];
        if Truthy(overrides[j].1) {
          files := Put(files, overrides[j].0, VocabFile(overrides[j].1.value, None, false));
          if aliased {
            defaultVocab := files;
          }
        }
        j := j + 1;
      }
      assert overrides[..j] == overrides;
    }

    /** The loop over `VOCAB_CONFIG_KEYS` of `getVocab`, on the shared object
        when `aliased`. */
    method AddConfigShared(base: VocabFiles, aliased: bool) returns (files: VocabFiles)
      requires aliased ==> defaultVocab == base
      modifies this
      ensures files == AddConfigFiles(base, VocabConfigKeys)
      ensures defaultVocab == if aliased then files else old(defaultVocab)
    {
      files := base;
      var k := 0;
      while k < |VocabConfigKeys|
        invariant 0 <= k <= |VocabConfigKeys|
        invariant files == AddConfigFiles(base, VocabConfigKeys[..k])
        invariant defaultVocab == if aliased then files else old(defaultVocab)
      {
        assert VocabConfigKeys[..k + 1][..k] == VocabConfigKeys[..k];
        files := Put(files, VocabConfigKeys[k], VocabFile(VocabConfigKeys[k], None, true));
        if aliased {
          defaultVocab := files;
        }
        k := k + 1;
      }
      assert VocabConfigKeys[..k] == VocabConfigKeys;
    }
  }

  /** The entries of a model type's mapping, added one key at a time. */
  method FilesFromMapping(mapping: seq<(string, string)>) returns (files: VocabFiles)
    ensures files == FromMapping(mapping)
  {
    files := [];
    var i := 0;
    while i < |mapping|
      invariant 0 <= i <= |mapping|
      invariant files == FromMapping(mapping[..i])
    {
      assert mapping[..i + 1][..i] == mapping[..i];
      files := Put(files, mapping[i].0, VocabFile(mapping[i].1, None, false));
      i := i + 1;
    }
    assert mapping[..i] == mapping;
  }

  /** A truthy override as one keyed assignment. */
  function PutIf(files: VocabFiles, key: string, name: Option<string>): VocabFiles {
    if Truthy(name) then Put(files, key, VocabFile(name.value, None, false)) else files
  }

  lemma ApplyOverridesUnfold(files: VocabFiles, mergesFile: Option<string>, vocabFile: Option<string>)
    ensures ApplyOverrides(files, Overrides(mergesFile, vocabFile))
            == PutIf(PutIf(files, "mergesFile", mergesFile), "vocabFile", vocabFile)
  {
    var o := Overrides(mergesFile, vocabFile);
    assert o[..|o| - 1] == o[..1];
    assert o[..1][..0] == [];
    assert ApplyOverrides(files, o[..1]) == PutIf(files, "mergesFile", mergesFile);
  }

  lemma AddConfigFilesUnfold(files: VocabFiles)
    ensures AddConfigFiles(files, VocabConfigKeys)
            == Put(Put(files, TokenizerConfigFile, VocabFile(TokenizerConfigFile, None, true)),
                   SpecialTokensMapFile, VocabFile(SpecialTokensMapFile, None, true))
  {
    var n := VocabConfigKeys;
    assert n[..|n| - 1] == n[..1];
    assert n[..1][..0] == [];
    assert AddConfigFiles(files, n[..1]) == Put(files, TokenizerConfigFile, VocabFile(TokenizerConfigFile, None, true));
  }

  /** Configuration files never disturb the other entries. */
  lemma AddConfigFilesKeeps(files: VocabFiles, key: string)
    requires key != TokenizerConfigFile && key != SpecialTokensMapFile
    ensures Get(AddConfigFiles(files, VocabConfigKeys), key) == Get(files, key)
  {
    AddConfigFilesUnfold(files);
  }

  /** Both configuration files are always listed, as optional downloads. */
  lemma ConfigFilesOptional(defaultVocab: VocabFiles, modelName: string, modelType: ModelType,
                            mergesFile: Option<string>, vocabFile: Option<string>)
    ensures var files := VocabFilesFrom(defaultVocab, modelName, modelType, mergesFile, vocabFile);
            && Get(files, TokenizerConfigFile) == Some(VocabFile(TokenizerConfigFile, None, true))
            && Get(files, SpecialTokensMapFile) == Some(VocabFile(SpecialTokensMapFile, None, true))
  {
    AddConfigFilesUnfold(BaseFiles(defaultVocab, modelName, modelType, mergesFile, vocabFile));
  }

  /** The configuration files added to a lone vocab.txt entry. */
  lemma SingleVocabWithConfig(url: string)
    ensures var files := AddConfigFiles([("vocabFile", VocabFile("vocab.txt", Some(url), false))], VocabConfigKeys);
            && Keys(files) == ["vocabFile", TokenizerConfigFile, SpecialTokensMapFile]
            && Get(files, "vocabFile") == Some(VocabFile("vocab.txt", Some(url), false))
            && Get(files, "mergesFile") == None
  {
    var e := ("vocabFile", VocabFile("vocab.txt", Some(url), false));
    var files := [e] + ConfigEntries;
    assert AddConfigFiles([e], VocabConfigKeys) == files by {
      FileKeysDistinct();
      assert Keys([e]) == [e.0];
      AddConfigToNew([e]);
    }
    assert Keys(files) == [e.0, TokenizerConfigFile, SpecialTokensMapFile];
    assert Get(files, "mergesFile") == None by {
      FileKeysDistinct();
    }
  }

  /** The entries the configuration loop adds. */
  const ConfigEntries: VocabFiles := [(TokenizerConfigFile, VocabFile(TokenizerConfigFile, None, true)),
                                      (SpecialTokensMapFile, VocabFile(SpecialTokensMapFile, None, true))]

  /** Without configuration entries yet, both go last, in order. */
  lemma AddConfigToNew(base: VocabFiles)
    requires TokenizerConfigFile !in Keys(base) && SpecialTokensMapFile !in Keys(base)
    ensures AddConfigFiles(base, VocabConfigKeys) == base + ConfigEntries
  {
    var t := (TokenizerConfigFile, VocabFile(TokenizerConfigFile, None, true));
    var m := (SpecialTokensMapFile, VocabFile(SpecialTokensMapFile, None, true));
    AddConfigFilesUnfold(base);
    FileKeysDistinct();
    PutNewTwice(base, t.0, t.1, m.0, m.1);
  }

  /** The keys of the vocabulary entries are pairwise different. */
  lemma FileKeysDistinct()
    ensures "vocabFile" != TokenizerConfigFile && "vocabFile" != SpecialTokensMapFile
    ensures "mergesFile" != TokenizerConfigFile && "mergesFile" != SpecialTokensMapFile
    ensures "vocabFile" != "mergesFile" && TokenizerConfigFile != SpecialTokensMapFile
  {
    assert "vocabFile"[0] != "mergesFile"[0];
    assert |TokenizerConfigFile| != |SpecialTokensMapFile|;
  }

  /** A model with a known vocabulary URL gets only vocab.txt from that URL
      (plus the configuration files); the caller's file names are ignored. */
  lemma HfMappedVocabFiles(modelName: string, modelType: ModelType,
                           mergesFile: Option<string>, vocabFile: Option<string>)
    requires modelName in HfVocabFilesMapping
    ensures var files := VocabFilesFor(modelName, modelType, mergesFile, vocabFile);
            && Keys(files) == ["vocabFile", TokenizerConfigFile, SpecialTokensMapFile]
            && Get(files, "vocabFile") == Some(VocabFile("vocab.txt", Some(HfVocabFilesMapping[modelName]), false))
            && Get(files, "mergesFile") == None
  {
    SingleVocabWithConfig(HfVocabFilesMapping[modelName]);
  }

  /** The two overrides, seen from their own keys. */
  lemma OverridesGet(files: VocabFiles, mergesFile: Option<string>, vocabFile: Option<string>)
    ensures var r := ApplyOverrides(files, Overrides(mergesFile, vocabFile));
            && Get(r, "mergesFile") == (if Truthy(mergesFile) then Some(VocabFile(mergesFile.value, None, false))
                                       else Get(files, "mergesFile"))
            && Get(r, "vocabFile") == (if Truthy(vocabFile) then Some(VocabFile(vocabFile.value, None, false))
                                      else Get(files, "vocabFile"))
  {
    ApplyOverridesUnfold(files, mergesFile, vocabFile);
  }

  lemma FromRobertaMapping()
    ensures FromMapping(VocabMapping(Roberta).value)
            == [("mergesFile", VocabFile("merges.txt", None, false)), ("vocabFile", VocabFile("vocab.json", None, false))]
  {
    var m := VocabMapping(Roberta).value;
    assert m[..|m| - 1] == m[..1];
    assert m[..1][..0] == [];
  }

  /** RoBERTa without a known URL: merges.txt and vocab.json, each replaced by
      the caller's truthy name. */
  lemma RobertaVocabFiles(modelName: string, mergesFile: Option<string>, vocabFile: Option<string>)
    requires modelName !in HfVocabFilesMapping
    ensures var files := VocabFilesFor(modelName, Roberta, mergesFile, vocabFile);
            && Get(files, "mergesFile") == Some(VocabFile(if Truthy(mergesFile) then mergesFile.value else "merges.txt", None, false))
            && Get(files, "vocabFile") == Some(VocabFile(if Truthy(vocabFile) then vocabFile.value else "vocab.json", None, false))
  {
    FromRobertaMapping();
    var start := FromMapping(VocabMapping(Roberta).value);
    OverridesGet(start, mergesFile, vocabFile);
    var base := ApplyOverrides(start, Overrides(mergesFile, vocabFile));
    assert BaseFiles(DefaultVocab, modelName, Roberta, mergesFile, vocabFile) == base;
    AddConfigFilesKeeps(base, "vocabFile");
    AddConfigFilesKeeps(base, "mergesFile");
  }

  /** Any other type without a known URL: the current default files, with the
      caller's truthy names replacing or adding entries. */
  lemma DefaultBaseFiles(defaultVocab: VocabFiles, modelName: string, modelType: ModelType,
                         mergesFile: Option<string>, vocabFile: Option<string>)
    requires modelName !in HfVocabFilesMapping && modelType != Roberta
    ensures var files := VocabFilesFrom(defaultVocab, modelName, modelType, mergesFile, vocabFile);
            && Get(files, "vocabFile") == (if Truthy(vocabFile) then Some(VocabFile(vocabFile.value, None, false))
                                          else Get(defaultVocab, "vocabFile"))
            && Get(files, "mergesFile") == (if Truthy(mergesFile) then Some(VocabFile(mergesFile.value, None, false))
                                           else Get(defaultVocab, "mergesFile"))
  {
    OverridesGet(defaultVocab, mergesFile, vocabFile);
    var base := ApplyOverrides(defaultVocab, Overrides(mergesFile, vocabFile));
    assert BaseFiles(defaultVocab, modelName, modelType, mergesFile, vocabFile) == base;
    AddConfigFilesKeeps(base, "vocabFile");
    AddConfigFilesKeeps(base, "mergesFile");
  }

  /** With the pristine default: vocab.txt, replaced by the caller's truthy
      name, and a merges file only when the caller names one. */
  lemma DefaultVocabFiles(modelName: string, modelType: ModelType,
                          mergesFile: Option<string>, vocabFile: Option<string>)
    requires modelName !in HfVocabFilesMapping && modelType != Roberta
    ensures var files := VocabFilesFor(modelName, modelType, mergesFile, vocabFile);
            && Get(files, "vocabFile") == Some(VocabFile(if Truthy(vocabFile) then vocabFile.value else "vocab.txt", None, false))
            && Get(files, "mergesFile") == (if Truthy(mergesFile) then Some(VocabFile(mergesFile.value, None, false)) else None)
  {
    DefaultBaseFiles(DefaultVocab, modelName, modelType, mergesFile, vocabFile);
    assert Get(DefaultVocab, "mergesFile") == None;
  }

  /** On a pristine `DEFAULT_VOCAB` the code as written resolves what the
      fresh-copy resolution does. */
  lemma FirstCallAgrees(modelName: string, modelType: ModelType,
                        mergesFile: Option<string>, vocabFile: Option<string>)
    ensures VocabFilesAsWritten(DefaultVocab, modelName, modelType, mergesFile, vocabFile).0
            == VocabFilesFor(modelName, modelType, mergesFile, vocabFile)
  {
  }

  /** As written, the overrides of one call leak into the next: after a BERT
      model without a known URL is resolved with vocab file "custom.txt", a
      second such model, resolved without overrides, is sent for "custom.txt"
      instead of vocab.txt. */
  lemma SharedDefaultVocabLeaks()
    ensures var first := VocabFilesAsWritten(DefaultVocab, "my-bert", Bert, None, Some("custom.txt"));
            var second := VocabFilesAsWritten(first.1, "other-bert", Bert, None, None);
            && Get(second.0, "vocabFile") == Some(VocabFile("custom.txt", None, false))
            && Get(VocabFilesFor("other-bert", Bert, None, None), "vocabFile")
               == Some(VocabFile("vocab.txt", None, false))
  {
    var first := VocabFilesAsWritten(DefaultVocab, "my-bert", Bert, None, Some("custom.txt"));
    DefaultVocabFiles("my-bert", Bert, None, Some("custom.txt"));
    assert first.1 == first.0;
    DefaultBaseFiles(first.1, "other-bert", Bert, None, None);
    DefaultVocabFiles("other-bert", Bert, None, None);
  }

  /* ---------------------------------------------------------------------- */
  /* The download loop of getVocab                                           */
  /* ---------------------------------------------------------------------- */

  /** `vocabConfig`: the text of each configuration file that was parsed, or
      None while the half is still `{}`. */
  datatype VocabConfig = VocabConfig(tokenizer: Option<string>, tokensMapping: Option<string>)

  const EmptyVocabConfig := VocabConfig(None, None)

  /** What `await fetch(url)` settles with: a rejection (a DNS or connection
      error), a response whose `ok` is false, or an ok response and its text. */
  datatype Response = Unreachable | NotOk | Body(text: string)

  /** The ways `getVocab` throws: no model type, a required file that could
      not be downloaded, a rejected `fetch`, and a downloaded configuration
      file that `JSON.parse` refuses. */
  datatype VocabError =
    | UnknownModelType
    | DownloadFailed(name: string, url: string)
    | FetchRejected(url: string)
    | BadConfig(name: string)

  /** What the loop threads through its iterations: the configuration read so
      far and the file system (path to contents). */
  datatype Fetched = Fetched(config: VocabConfig, disk: map<string, string>)

  function SetConfig(c: VocabConfig, filename: string, raw: string): VocabConfig {
    match GetVocabConfigKey(filename)
    case TokenizerKey => c.(tokenizer := Some(raw))
    case TokensMappingKey => c.(tokensMapping := Some(raw))
  }

  /** The URL a file is fetched from: its own, or the CDN one. */
  function FileUrl(f: VocabFile, modelName: string): string {
    f.url.GetOr(GetHfUrl(modelName, f.name))
  }

  /** One iteration for one file. A missing file is fetched: a rejected fetch
      throws, a response that is not ok throws unless the file is optional,
      and a body is written to disk. A configuration file is parsed when
      `returnConfig` is set: after a download an unparsable text throws
      (utils.ts:261 is outside any `try`), while on the on-disk path the
      failure is caught and the half stays `{}`. `parses` says which texts
      `JSON.parse` accepts. */
  function FetchStep(st: Fetched, f: VocabFile, dir: string, modelName: string, returnConfig: bool,
                     web: string -> Response, parses: string -> bool): Result<Fetched, VocabError>
  {
    var file := PathJoin(dir, f.name);
    var isConfig := returnConfig && f.name in VocabConfigKeys;
    if file !in st.disk then
      var url := FileUrl(f, modelName);
      match web(url)
      case Unreachable => Err(FetchRejected(url))
      case NotOk => if !f.optional then Err(DownloadFailed(f.name, url)) else Ok(st)
      case Body(raw) =>
        var disk := st.disk[file := raw];
        if !isConfig then Ok(Fetched(st.config, disk))
        else if parses(raw) then Ok(Fetched(SetConfig(st.config, f.name, raw), disk))
        else Err(BadConfig(f.name))
    else if isConfig && parses(st.disk[file]) then
      Ok(st.(config := SetConfig(st.config, f.name, st.disk[file])))
    else Ok(st)
  }

  /** The loop over `Object.values(vocabFiles)`, stopping at the first throw. */
  function FetchAll(files: seq<VocabFile>, start: Fetched, dir: string, modelName: string,
                    returnConfig: bool, web: string -> Response, parses: string -> bool)
    : Result<Fetched, VocabError>
  {
    if files == [] then Ok(start)
    else
      match FetchAll(files[..|files| - 1], start, dir, modelName, returnConfig, web, parses)
      case Err(e) => Err(e)
      case Ok(st) => FetchStep(st, files[|files| - 1], dir, modelName, returnConfig, web, parses)
  }

  method DownloadVocabFiles(files: seq<VocabFile>, dir: string, modelName: string, returnConfig: bool,
                            disk: map<string, string>, web: string -> Response, parses: string -> bool)
    returns (r: Result<Fetched, VocabError>)
    ensures r == FetchAll(files, Fetched(EmptyVocabConfig, disk), dir, modelName, returnConfig, web, parses)
  {
    var config := EmptyVocabConfig;
    var fs := disk;
    var i := 0;
    while i < |files|
      invariant 0 <= i <= |files|
      invariant FetchAll(files[..i], Fetched(EmptyVocabConfig, disk), dir, modelName, returnConfig, web, parses)
                == Ok(Fetched(config, fs))
    {
      assert files[..i + 1][..i] == files[..i];
      var f := files[i];
      var file := PathJoin(dir, f.name);
      var isConfig := returnConfig && f.name in VocabConfigKeys;
      if file !in fs {
        var url := FileUrl(f, modelName);
        var response := web(url);
        if response.Unreachable? {
          r := Err(FetchRejected(url));
          FetchAllStopsAtError(files, i + 1, Fetched(EmptyVocabConfig, disk), dir, modelName, returnConfig, web, parses);
          return;
        } else if response.NotOk? {
          if !f.optional {
            r := Err(DownloadFailed(f.name, url));
            FetchAllStopsAtError(files, i + 1, Fetched(EmptyVocabConfig, disk), dir, modelName, returnConfig, web, parses);
            return;
          }
        } else {
          var raw := response.text;
          fs := fs[file := raw];
          if isConfig {
            if !parses(raw) {
              r := Err(BadConfig(f.name));
              FetchAllStopsAtError(files, i + 1, Fetched(EmptyVocabConfig, disk), dir, modelName, returnConfig, web, parses);
              return;
            }
            config := SetConfig(config, f.name, raw);
          }
        }
      } else if isConfig && parses(fs[file]) {
        config := SetConfig(config, f.name, fs[file]);
      }
      i := i + 1;
    }
    assert files[..i] == files;
    r := Ok(Fetched(config, fs));
  }

  /** A throw in a prefix is the result of the whole loop. */
  lemma {:induction false} FetchAllStopsAtError(files: seq<VocabFile>, n: nat, start: Fetched, dir: string,
                                                modelName: string, returnConfig: bool,
                                                web: string -> Response, parses: string -> bool)
    requires n <= |files|
    requires FetchAll(files[..n], start, dir, modelName, returnConfig, web, parses).Err?
    ensures FetchAll(files, start, dir, modelName, returnConfig, web, parses)
            == FetchAll(files[..n], start, dir, modelName, returnConfig, web, parses)
    decreases |files| - n
  {
    if n < |files| {
      assert files[..n + 1][..n] == files[..n];
      FetchAllStopsAtError(files, n + 1, start, dir, modelName, returnConfig, web, parses);
    } else {
      assert files[..n] == files;
    }
  }

  /** `e` is a throw that file `f` can cause: a required file whose response
      is not ok, a rejected fetch of its URL, or a downloaded configuration
      text that does not parse. */
  predicate ThrowsFor(f: VocabFile, e: VocabError, modelName: string, returnConfig: bool,
                      web: string -> Response, parses: string -> bool)
  {
    var url := FileUrl(f, modelName);
    match e
    case UnknownModelType => false
    case DownloadFailed(name, u) => name == f.name && u == url && !f.optional && web(url) == NotOk
    case FetchRejected(u) => u == url && web(url) == Unreachable
    case BadConfig(name) =>
      && name == f.name && returnConfig && f.name in VocabConfigKeys
      && web(url).Body? && !parses(web(url).text)
  }

  /** Every throw of the loop is caused by one of its files, in one of the
      three ways of ThrowsFor; `optional` protects only against a response
      that is not ok. */
  lemma {:induction false} FetchFailureCauses(files: seq<VocabFile>, start: Fetched, dir: string,
                                              modelName: string, returnConfig: bool,
                                              web: string -> Response, parses: string -> bool)
    requires FetchAll(files, start, dir, modelName, returnConfig, web, parses).Err?
    ensures var e := FetchAll(files, start, dir, modelName, returnConfig, web, parses).error;
            exists k :: 0 <= k < |files| && ThrowsFor(files[k], e, modelName, returnConfig, web, parses)
  {
    var last := |files| - 1;
    var prefix := FetchAll(files[..last], start, dir, modelName, returnConfig, web, parses);
    if prefix.Err? {
      FetchFailureCauses(files[..last], start, dir, modelName, returnConfig, web, parses);
      var k :| 0 <= k < last && ThrowsFor(files[..last][k], prefix.error, modelName, returnConfig, web, parses);
      assert files[k] == files[..last][k];
    } else {
      assert ThrowsFor(files[last], FetchAll(files, start, dir, modelName, returnConfig, web, parses).error,
                       modelName, returnConfig, web, parses);
    }
  }

  /** If every file is optional, no fetch is rejected and, when the
      configuration is asked for, every downloaded text parses, then the loop
      never throws. */
  lemma {:induction false} OptionalFilesNeverFail(files: seq<VocabFile>, start: Fetched, dir: string,
                                                  modelName: string, returnConfig: bool,
                                                  web: string -> Response, parses: string -> bool)
    requires forall k :: 0 <= k < |files| ==> files[k].optional
    requires forall url :: web(url) != Unreachable
    requires returnConfig ==> forall url :: web(url).Body? ==> parses(web(url).text)
    ensures FetchAll(files, start, dir, modelName, returnConfig, web, parses).Ok?
  {
    if files != [] {
      var last := |files| - 1;
      OptionalFilesNeverFail(files[..last], start, dir, modelName, returnConfig, web, parses);
    }
  }

  /** `optional` does not protect against a rejected fetch: an optional file
      that is not on disk and whose URL cannot be reached makes the loop
      throw. */
  lemma {:induction false} RejectedFetchThrows(files: seq<VocabFile>, start: Fetched, dir: string,
                                               modelName: string, returnConfig: bool,
                                               web: string -> Response, parses: string -> bool)
    requires files != [] && files[|files| - 1].optional
    requires FetchAll(files[..|files| - 1], start, dir, modelName, returnConfig, web, parses).Ok?
    requires PathJoin(dir, files[|files| - 1].name)
             !in FetchAll(files[..|files| - 1], start, dir, modelName, returnConfig, web, parses).value.disk
    requires web(FileUrl(files[|files| - 1], modelName)) == Unreachable
    ensures FetchAll(files, start, dir, modelName, returnConfig, web, parses)
            == Err(FetchRejected(FileUrl(files[|files| - 1], modelName)))
  {
  }

  /** On success every file is on disk, except optional ones whose response
      was not ok; nothing already on disk is lost. */
  lemma {:induction false} FetchedFilesPresent(files: seq<VocabFile>, start: Fetched, dir: string,
                                               modelName: string, returnConfig: bool,
                                               web: string -> Response, parses: string -> bool)
    requires FetchAll(files, start, dir, modelName, returnConfig, web, parses).Ok?
    ensures var st := FetchAll(files, start, dir, modelName, returnConfig, web, parses).value;
            && start.disk.Keys <= st.disk.Keys
            && forall k :: 0 <= k < |files| ==>
                 PathJoin(dir, files[k].name) in st.disk
                 || (files[k].optional && web(FileUrl(files[k], modelName)) == NotOk)
  {
    if files != [] {
      var last := |files| - 1;
      FetchedFilesPresent(files[..last], start, dir, modelName, returnConfig, web, parses);
      var st := FetchAll(files[..last], start, dir, modelName, returnConfig, web, parses).value;
      var st' := FetchAll(files, start, dir, modelName, returnConfig, web, parses).value;
      assert st.disk.Keys <= st'.disk.Keys;
      forall k | 0 <= k < |files|
        ensures PathJoin(dir, files[k].name) in st'.disk
                || (files[k].optional && web(FileUrl(files[k], modelName)) == NotOk)
      {
        if k < last {
          assert files[k] == files[..last][k];
        }
      }
    }
  }

  /** Without `returnConfig` no configuration is recorded, and no text is
      parsed, so no BadConfig is thrown. */
  lemma {:induction false} ConfigOnlyWhenAsked(files: seq<VocabFile>, start: Fetched, dir: string,
                                               modelName: string, web: string -> Response, parses: string -> bool)
    ensures var r := FetchAll(files, start, dir, modelName, false, web, parses);
            && (r.Ok? ==> r.value.config == start.config)
            && (r.Err? ==> !r.error.BadConfig?)
  {
    if files != [] {
      ConfigOnlyWhenAsked(files[..|files| - 1], start, dir, modelName, web, parses);
    }
  }

  datatype VocabDownloadOptions = VocabDownloadOptions(dir: string, modelName: string,
                                                       mergesFile: Option<string>, vocabFile: Option<string>)

  /** `getVocab(options, returnConfig)` with a fresh copy of the default files;
      `modelType` is what `getModelType(options.modelName)` gives. The result
      is the configuration (only when asked for) and the new file system. */
  method GetVocab(options: VocabDownloadOptions, modelType: Option<ModelType>, returnConfig: bool,
                  disk: map<string, string>, web: string -> Response, parses: string -> bool)
    returns (r: Result<(Option<VocabConfig>, map<string, string>), VocabError>)
    ensures modelType.None? ==> r == Err(UnknownModelType)
    ensures modelType.Some? ==>
              var files := Values(VocabFilesFor(options.modelName, modelType.value, options.mergesFile, options.vocabFile));
              var f := FetchAll(files, Fetched(EmptyVocabConfig, disk), options.dir, options.modelName,
                                returnConfig, web, parses);
              && (r.Err? <==> f.Err?)
              && (r.Err? ==> r.error == f.error)
              && (r.Ok? ==> r.value.1 == f.value.disk
                            && (r.value.0.Some? <==> returnConfig)
                            && (returnConfig ==> r.value.0.value == f.value.config))
  {
    if modelType.None? {
      return Err(UnknownModelType);
    }
    var files := VocabFilesFor(options.modelName, modelType.value, options.mergesFile, options.vocabFile);
    var fetched := DownloadVocabFiles(Values(files), options.dir, options.modelName, returnConfig, disk, web, parses);
    match fetched
    case Err(e) =>
      r := Err(e);
    case Ok(st) =>
      r := Ok((if returnConfig then Some(st.config) else None, st.disk));
  }

  /* ---------------------------------------------------------------------- */
  /* downloadModel                                                           */
  /* ---------------------------------------------------------------------- */

  /** `LocalRuntime`: the formats that are downloaded. */
  datatype LocalFormat = SavedModelFormat | TfjsFormat

  /** An entry of `HF_MODELS_MAPPING`. */
  datatype DefaultModel = DefaultModel(savedModel: string, tfjs: Option<string>)

  /** `HF_MODELS_MAPPING` */
  const HfModelsMapping: map<string, DefaultModel> := map[
    "bert-large-cased-whole-word-masking-finetuned-squad" := DefaultModel(
      "https://cdn.huggingface.co/bert-large-cased-whole-word-masking-finetuned-squad-saved_model.tar.gz", None),
    "bert-large-uncased-whole-word-masking-finetuned-squad" := DefaultModel(
      "https://cdn.huggingface.co/bert-large-uncased-whole-word-masking-finetuned-squad-saved_model.tar.gz", None),
    "distilbert-base-cased-distilled-squad" := DefaultModel(
      "https://cdn.huggingface.co/distilbert-base-cased-distilled-squad-384-saved_model.tar.gz",
      Some("https://cdn.huggingface.co/distilbert-base-cased-distilled-squad-384-tfjs.tar.gz")),
    "distilbert-base-uncased-distilled-squad" := DefaultModel(
      "https://cdn.huggingface.co/distilbert-base-uncased-distilled-squad-384-saved_model.tar.gz", None)
  ]

  /** The directory a model is extracted into. */
  function ModelDir(dir: string, format: LocalFormat): (d: string)
    ensures format == TfjsFormat ==> d == PathJoin(dir, "tfjs")
    ensures format == SavedModelFormat ==> d == dir
  {
    PathJoin(dir, if format == TfjsFormat then "tfjs" else "")
  }

  datatype DownloadError = FormatUnavailable(format: LocalFormat)

  /** The archive URL of a model in a format. */
  function ModelUrl(name: string, format: LocalFormat): Result<string, DownloadError> {
    if name in HfModelsMapping then
      match format
      case SavedModelFormat => Ok(HfModelsMapping[name].savedModel)
      case TfjsFormat =>
        if HfModelsMapping[name].tfjs.Some? then Ok(HfModelsMapping[name].tfjs.value)
        else Err(FormatUnavailable(TfjsFormat))
    else Ok(GetHfUrl(name, "saved_model.tar.gz"))
  }

  /** Of the known models only distilbert-base-cased-distilled-squad exists in
      TFJS format; a saved model is always available. An unknown model is
      always fetched as a saved-model archive, whatever the format. */
  lemma ModelUrlAvailability(name: string)
    ensures ModelUrl(name, SavedModelFormat).Ok?
    ensures ModelUrl(name, TfjsFormat).Err? <==>
              name in HfModelsMapping && name != "distilbert-base-cased-distilled-squad"
    ensures name !in HfModelsMapping ==> ModelUrl(name, TfjsFormat) == ModelUrl(name, SavedModelFormat)
  {
  }

  /** What `downloadModel` does. */
  datatype DownloadPlan = AlreadyPresent | Fetch(url: string, into: string)

  /** `downloadModel({dir, format, name})` against the set of existing paths. */
  function DownloadModelPlan(dir: string, name: string, format: LocalFormat, existing: set<string>)
    : (r: Result<DownloadPlan, DownloadError>)
    // an existing TFJS directory, or an existing saved-model directory holding
    // saved_model.pb, is left alone
    ensures r == Ok(AlreadyPresent) <==>
              ModelDir(dir, format) in existing
              && (format == TfjsFormat || PathJoin(ModelDir(dir, format), "saved_model.pb") in existing)
    ensures r.Ok? && r.value.Fetch? ==> r.value.into == ModelDir(dir, format) && ModelUrl(name, format) == Ok(r.value.url)
    ensures r.Err? ==> ModelUrl(name, format).Err? && r.error == ModelUrl(name, format).error
  {
    var modelDir := ModelDir(dir, format);
    if modelDir in existing && (format == TfjsFormat || PathJoin(modelDir, "saved_model.pb") in existing) then
      Ok(AlreadyPresent)
    else
      match ModelUrl(name, format)
      case Err(e) => Err(e)
      case Ok(url) => Ok(Fetch(url, modelDir))
  }
}
