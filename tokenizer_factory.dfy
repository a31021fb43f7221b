/** `initTokenizer` of tokenizer.factory.ts: the model type, the files
    directory, the casing flag and the special tokens are resolved from the
    caller's options, the inferred type and the vocabulary configuration, and
    the tokenizer class is chosen by type. What `getModelType` and `getVocab`
    give back are inputs. */
module TokenizerFactory {
  import opened Js
  import opened Tokenizers
  import M = Models
  import Utils

  /** A JSON value of a configuration file, as far as the factory inspects it
      (`typeof v === "boolean"`, `typeof v === "string"`). */
  datatype JsonValue = JBool(b: bool) | JString(s: string) | JOther

  /** The parsed `VocabConfiguration`: `tokenizer.do_lower_case` and the
      special tokens map. */
  datatype ParsedConfig = ParsedConfig(doLowerCase: Option<JsonValue>, tokensMapping: map<string, JsonValue>)

  /** `TOKEN_KEYS_MAPPING`, in declaration order: configuration key, option name. */
  const TokenKeysMapping: seq<(string, string)> := [
    ("cls_token", "clsToken"), ("eos_token", "eosToken"), ("mask_token", "maskToken"),
    ("pad_token", "padToken"), ("sep_token", "sepToken"), ("unk_token", "unkToken")
  ]

  /** `TokenizerFactoryOptions` */
  datatype FactoryOptions = FactoryOptions(
    lowercase: Option<bool>, mergesFile: Option<string>, filesDir: string, modelName: Option<string>,
    modelType: Option<M.ModelType>, vocabFile: Option<string>, tokens: map<string, Token>)

  datatype InitError = TokenizerFailed(cause: TokenizerError) | VocabFailed(vocabError: Utils.VocabError)

  /** The tokenizer `initTokenizer` builds, up to the library calls. */
  datatype Created = RobertaTokenizer(setup: RobertaSetup) | BertTokenizer(wordPiece: WordPieceOptions)

  /* ---------------------------------------------------------------------- */
  /* The resolution rules                                                    */
  /* ---------------------------------------------------------------------- */

  /** The configuration's `do_lower_case`, used only when it is a boolean and
      the option is undefined. */
  function ConfigLowercase(explicit: Option<bool>, config: ParsedConfig): Option<bool> {
    if explicit.None? && config.doLowerCase.Some? && config.doLowerCase.value.JBool? then
      Some(config.doLowerCase.value.b)
    else explicit
  }

  /** The name heuristic: "uncased" anywhere in the lower-cased name gives
      true, else "cased" gives false, else nothing. */
  function NameLowercase(modelName: Option<string>): (r: Option<bool>)
    ensures r == Some(true) <==> modelName.Some? && Includes(Lower(modelName.value), "uncased")
    ensures r == Some(false) <==> modelName.Some? && !Includes(Lower(modelName.value), "uncased")
                                  && Includes(Lower(modelName.value), "cased")
  {
    if modelName.Some? && Includes(Lower(modelName.value), "uncased") then Some(true)
    else if modelName.Some? && Includes(Lower(modelName.value), "cased") then Some(false)
    else None
  }

  /** What a special token option becomes: kept when already defined, else
      filled from a string value of the configuration, else left undefined. */
  function FilledToken(tokens: map<string, Token>, config: map<string, JsonValue>, entry: (string, string))
    : Option<Token>
  {
    if entry.1 in tokens then Some(tokens[entry.1])
    else if entry.0 in config && config[entry.0].JString? then Some(Str(config[entry.0].s))
    else None
  }

  function OptionNames(mapping: seq<(string, string)>): set<string> {
    set j | 0 <= j < |mapping| :: mapping[j].1
  }

  /** The loop over `TOKEN_KEYS_MAPPING`. */
  function FillTokens(tokens: map<string, Token>, config: map<string, JsonValue>,
                      mapping: seq<(string, string)>): (r: map<string, Token>)
    // options outside the mapping are not touched, and no defined option is overwritten
    ensures forall k :: k !in OptionNames(mapping) ==> TokenGet(r, k) == TokenGet(tokens, k)
    ensures forall k :: k in tokens ==> k in r && r[k] == tokens[k]
  {
    if mapping == [] then tokens
    else
      var entry := mapping[|mapping| - 1];
      var before := FillTokens(tokens, config, mapping[..|mapping| - 1]);
      assert OptionNames(mapping) == OptionNames(mapping[..|mapping| - 1]) + {entry.1};
      if entry.1 !in before && entry.0 in config && config[entry.0].JString? then
        before[entry.1 := Str(config[entry.0].s)]
      else before
  }

  predicate DistinctOptions(mapping: seq<(string, string)>) {
    forall i, j :: 0 <= i < j < |mapping| ==> mapping[i].1 != mapping[j].1
  }

  /** With distinct option names each option of the mapping ends up exactly as
      `FilledToken` says. */
  lemma {:induction false} FillTokensExact(tokens: map<string, Token>, config: map<string, JsonValue>,
                                           mapping: seq<(string, string)>, j: nat)
    requires DistinctOptions(mapping) && j < |mapping|
    ensures TokenGet(FillTokens(tokens, config, mapping), mapping[j].1) == FilledToken(tokens, config, mapping[j])
  {
    var last := |mapping| - 1;
    var prefix := mapping[..last];
    var before := FillTokens(tokens, config, prefix);
    if j == last {
      assert mapping[last].1 !in OptionNames(prefix);
      assert TokenGet(before, mapping[last].1) == TokenGet(tokens, mapping[last].1);
    } else {
      assert prefix[j] == mapping[j];
      FillTokensExact(tokens, config, prefix, j);
    }
  }

  /** `TOKEN_KEYS_MAPPING` maps every configuration key to its own option. */
  lemma TokenKeysDistinct()
    ensures DistinctOptions(TokenKeysMapping)
  {
  }

  /** The options `initTokenizer` hands to the tokenizer class. `inferredType`
      is `getModelType(options.modelName)`; `vocab` is what `getVocab` gives
      for the model name with `returnConfig` set. */
  function ResolveOptions(options: FactoryOptions, inferredType: Option<M.ModelType>,
                          vocab: Result<ParsedConfig, Utils.VocabError>, assetsDir: string)
    : Result<TokenizerOptions, InitError>
  {
    if options.modelType.None? && !Truthy(options.modelName) then Err(TokenizerFailed(NoTypeNorName))
    else if Truthy(options.modelName) && vocab.Err? then Err(VocabFailed(vocab.error))
    else
      var modelType := if options.modelType.Some? then options.modelType else inferredType;
      var filesDir := Utils.GetAbsolutePath(Some(options.filesDir), assetsDir);
      var lowercase := if Truthy(options.modelName) then ConfigLowercase(options.lowercase, vocab.value)
                       else options.lowercase;
      var tokens := if Truthy(options.modelName) then FillTokens(options.tokens, vocab.value.tokensMapping, TokenKeysMapping)
                    else options.tokens;
      var finalLowercase := if lowercase.Some? then lowercase else NameLowercase(options.modelName);
      Ok(TokenizerOptions(finalLowercase, options.mergesFile, filesDir, modelType, options.vocabFile, tokens))
  }

  /* ---------------------------------------------------------------------- */
  /* Properties of the resolution                                            */
  /* ---------------------------------------------------------------------- */

  /** Without a model type and a model name there is nothing to go on; an
      explicit type wins over the inferred one. The files directory is made
      absolute against the assets directory. */
  lemma TypePrecedence(options: FactoryOptions, inferredType: Option<M.ModelType>,
                       vocab: Result<ParsedConfig, Utils.VocabError>, assetsDir: string)
    ensures var r := ResolveOptions(options, inferredType, vocab, assetsDir);
            && (r == Err(TokenizerFailed(NoTypeNorName)) <==> options.modelType.None? && !Truthy(options.modelName))
            && (r.Ok? && options.modelType.Some? ==> r.value.modelType == options.modelType)
            && (r.Ok? && options.modelType.None? ==> r.value.modelType == inferredType)
            && (r.Ok? ==> r.value.filesDir == Utils.GetAbsolutePath(Some(options.filesDir), assetsDir))
  {
  }

  /** The casing flag: the explicit option first, then a boolean
      `do_lower_case` of the configuration (only with a model name), then the
      name heuristic. */
  lemma LowercasePrecedence(options: FactoryOptions, inferredType: Option<M.ModelType>,
                            vocab: Result<ParsedConfig, Utils.VocabError>, assetsDir: string)
    requires ResolveOptions(options, inferredType, vocab, assetsDir).Ok?
    ensures var l := ResolveOptions(options, inferredType, vocab, assetsDir).value.lowercase;
            && (options.lowercase.Some? ==> l == options.lowercase)
            && (options.lowercase.None? && Truthy(options.modelName)
                && vocab.value.doLowerCase.Some? && vocab.value.doLowerCase.value.JBool?
                ==> l == Some(vocab.value.doLowerCase.value.b))
            && (options.lowercase.None?
                && (!Truthy(options.modelName) || vocab.value.doLowerCase.None? || !vocab.value.doLowerCase.value.JBool?)
                ==> l == NameLowercase(options.modelName))
  {
  }

  /** "uncased" contains "cased": the heuristic must test "uncased" first, or
      no name would ever be found uncased. */
  lemma UncasedContainsCased(s: string)
    requires Includes(s, "uncased")
    ensures Includes(s, "cased")
  {
    var i :| MatchAt(s, "uncased", i);
    assert s[i + 2..i + 7] == s[i..i + 7][2..];
    assert MatchAt(s, "cased", i + 2);
  }

  /** The name heuristic ignores case. */
  lemma NameLowercaseIgnoresCase(a: string, b: string)
    requires Lower(a) == Lower(b)
    ensures NameLowercase(Some(a)) == NameLowercase(Some(b))
  {
  }

  /** A special token option is filled from the configuration only when the
      caller left it undefined and the value is a string; with no model name
      the caller's tokens are passed on as they are. */
  lemma SpecialTokensFilled(options: FactoryOptions, inferredType: Option<M.ModelType>,
                            vocab: Result<ParsedConfig, Utils.VocabError>, assetsDir: string, j: nat)
    requires ResolveOptions(options, inferredType, vocab, assetsDir).Ok?
    requires j < |TokenKeysMapping|
    ensures var tokens := ResolveOptions(options, inferredType, vocab, assetsDir).value.tokens;
            && (Truthy(options.modelName) ==>
                  TokenGet(tokens, TokenKeysMapping[j].1)
                  == FilledToken(options.tokens, vocab.value.tokensMapping, TokenKeysMapping[j]))
            && (!Truthy(options.modelName) ==> tokens == options.tokens)
  {
    if Truthy(options.modelName) {
      FillTokensExact(options.tokens, vocab.value.tokensMapping, TokenKeysMapping, j);
    }
  }

  /** The vocabulary configuration is consulted only when a model name is
      given: otherwise what `getVocab` would give is irrelevant. */
  lemma ConfigOnlyWithModelName(options: FactoryOptions, inferredType: Option<M.ModelType>,
                                vocab1: Result<ParsedConfig, Utils.VocabError>,
                                vocab2: Result<ParsedConfig, Utils.VocabError>, assetsDir: string)
    requires !Truthy(options.modelName)
    ensures ResolveOptions(options, inferredType, vocab1, assetsDir)
            == ResolveOptions(options, inferredType, vocab2, assetsDir)
  {
  }

  /* ---------------------------------------------------------------------- */
  /* initTokenizer                                                           */
  /* ---------------------------------------------------------------------- */

  /** `initTokenizer(options)`: `existing` is the set of files on disk and
      `defaultVocabPath` the vocabulary bundled with the package. */
  method InitTokenizer(options: FactoryOptions, inferredType: Option<M.ModelType>,
                       vocab: Result<ParsedConfig, Utils.VocabError>, assetsDir: string,
                       existing: set<string>, defaultVocabPath: string)
    returns (r: Result<Created, InitError>)
    ensures var full := ResolveOptions(options, inferredType, vocab, assetsDir);
            && (full.Err? ==> r == Err(full.error))
            // RoBERTa gets the RoBERTa tokenizer, with its own errors
            && (full.Ok? && full.value.modelType == Some(M.Roberta) ==>
                  match RobertaFromOptions(full.value, existing)
                  case Ok(setup) => r == Ok(RobertaTokenizer(setup))
                  case Err(e) => r == Err(TokenizerFailed(e)))
            // every other type, and none, gets the BERT tokenizer
            && (full.Ok? && full.value.modelType != Some(M.Roberta) ==>
                  && r.Ok? && r.value.BertTokenizer?
                  && r.value.wordPiece.vocabFile
                     == WordPieceVocabPath(full.value.vocabFile, full.value.filesDir, existing, defaultVocabPath)
                  && r.value.wordPiece.lowercase == full.value.lowercase
                  && (forall k :: k in r.value.wordPiece.tokens <==>
                                    k in BertTokenKeys && TokenTruthy(TokenGet(full.value.tokens, k)))
                  && (forall k :: k in r.value.wordPiece.tokens ==>
                                    k in full.value.tokens && r.value.wordPiece.tokens[k] == full.value.tokens[k]))
  {
    var full := ResolveTokenizerOptions(options, inferredType, vocab, assetsDir);
    if full.Err? {
      return Err(full.error);
    }
    if full.value.modelType == Some(M.Roberta) {
      match RobertaFromOptions(full.value, existing)
      case Ok(setup) =>
        r := Ok(RobertaTokenizer(setup));
      case Err(e) =>
        r := Err(TokenizerFailed(e));
    } else {
      var wordPiece := BertFromOptions(full.value, existing, defaultVocabPath);
      r := Ok(BertTokenizer(wordPiece));
    }
  }

  /** The options part of `initTokenizer`: the model type, the configuration's
      lowercasing and special tokens, and lowercasing from the model name. */
  method ResolveTokenizerOptions(options: FactoryOptions, inferredType: Option<M.ModelType>,
                                 vocab: Result<ParsedConfig, Utils.VocabError>, assetsDir: string)
    returns (r: Result<TokenizerOptions, InitError>)
    ensures r == ResolveOptions(options, inferredType, vocab, assetsDir)
  {
    var modelType := options.modelType;
    if modelType.None? {
      if !Truthy(options.modelName) {
        return Err(TokenizerFailed(NoTypeNorName));
      }
      modelType := inferredType;
    }
    var full := TokenizerOptions(options.lowercase, options.mergesFile,
                                 Utils.GetAbsolutePath(Some(options.filesDir), assetsDir),
                                 modelType, options.vocabFile, options.tokens);
    if Truthy(options.modelName) {
      if vocab.Err? {
        return Err(VocabFailed(vocab.error));
      }
      var config := vocab.value;
      if full.lowercase.None? && config.doLowerCase.Some? && config.doLowerCase.value.JBool? {
        full := full.(lowercase := Some(config.doLowerCase.value.b));
      }
      var i := 0;
      while i < |TokenKeysMapping|
        invariant 0 <= i <= |TokenKeysMapping|
        invariant full.tokens == FillTokens(options.tokens, config.tokensMapping, TokenKeysMapping[..i])
        invariant full.lowercase == ConfigLowercase(options.lowercase, config)
        invariant full.(tokens := options.tokens, lowercase := options.lowercase)
                  == TokenizerOptions(options.lowercase, options.mergesFile,
                                      Utils.GetAbsolutePath(Some(options.filesDir), assetsDir),
                                      modelType, options.vocabFile, options.tokens)
      {
        assert TokenKeysMapping[..i + 1][..i] == TokenKeysMapping[..i];
        var (key, option) := TokenKeysMapping[i];
        if option !in full.tokens && key in config.tokensMapping && config.tokensMapping[key].JString? {
          full := full.(tokens := full.tokens[option := Str(config.tokensMapping[key].s)]);
        }
        i := i + 1;
      }
      assert TokenKeysMapping[..i] == TokenKeysMapping;
    }
    if full.lowercase.None? {
      if options.modelName.Some? && Includes(Lower(options.modelName.value), "uncased") {
        full := full.(lowercase := Some(true));
      } else if options.modelName.Some? && Includes(Lower(options.modelName.value), "cased") {
        full := full.(lowercase := Some(false));
      }
    }
    r := Ok(full);
  }
}
