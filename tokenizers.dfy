/** The tokenizer wrappers: where the question and the context sit in an
    encoding (tokenizer.ts and its three subclasses), and how each subclass
    resolves its files and special tokens in `fromOptions`. The tokenizers
    library itself is outside the model: an encoding is given as its tokens and
    its special-tokens mask. */
module Tokenizers {
  import opened Js
  import Models

  /** The part of a tokenizers-library `Encoding` that index arithmetic reads. */
  datatype Encoding = Encoding(tokens: seq<string>, specialTokensMask: seq<int>)

  /** The three tokenizer classes, each with the separator it searches for: the
      configured SEP token for the WordPiece ones, the EOS token for RoBERTa. */
  datatype TokenizerKind = BertKind(sep: string) | DistilbertKind(sep: string) | RobertaKind(eos: string)

  /** The `reduce` sum of the special-tokens mask. */
  function AddedTokens(mask: seq<int>): int {
    if mask == [] then 0 else AddedTokens(mask[..|mask| - 1]) + mask[|mask| - 1]
  }

  /** The mask holds 0/1 flags, so the count of added tokens lies between 0 and
      the mask length. */
  lemma {:induction false} AddedTokensBounds(mask: seq<int>)
    requires forall i :: 0 <= i < |mask| ==> mask[i] == 0 || mask[i] == 1
    ensures 0 <= AddedTokens(mask) <= |mask|
  {
    if mask != [] {
      AddedTokensBounds(mask[..|mask| - 1]);
    }
  }

  function Separator(kind: TokenizerKind): string {
    match kind
    case BertKind(s) => s
    case DistilbertKind(s) => s
    case RobertaKind(e) => e
  }

  /** The number of tokens between the leading CLS token and the separator. */
  function QuestionLength(kind: TokenizerKind, e: Encoding): (q: int)
    ensures Separator(kind) in e.tokens ==>
              0 <= q + 1 < |e.tokens| && e.tokens[q + 1] == Separator(kind)
              && Separator(kind) !in e.tokens[..q + 1]
    ensures Separator(kind) !in e.tokens ==> q == -2
  {
    IndexOf(e.tokens, Separator(kind)) - 1
  }

  /** How many special tokens sit between the start of the question and the
      start of the context beyond the question itself: CLS and SEP for the
      WordPiece tokenizers, CLS and the doubled separator for RoBERTa. */
  function ContextOffset(kind: TokenizerKind): int {
    if kind.RobertaKind? then 3 else 2
  }

  function ContextStartIndex(kind: TokenizerKind, e: Encoding): int {
    QuestionLength(kind, e) + ContextOffset(kind)
  }

  /** `getContextEndIndex`: the context start plus the context length, minus one. */
  function ContextEndIndex(kind: TokenizerKind, e: Encoding): int {
    var actualLength := |e.tokens| - AddedTokens(e.specialTokensMask);
    var contextLength := actualLength - QuestionLength(kind, e);
    ContextStartIndex(kind, e) + contextLength - 1
  }

  /** The context starts right after the first separator (BERT, DistilBERT) or
      one token after it (RoBERTa's doubled separator). */
  lemma ContextStartAfterSeparator(kind: TokenizerKind, e: Encoding)
    requires Separator(kind) in e.tokens
    ensures var s := ContextStartIndex(kind, e);
            && (kind.RobertaKind? ==> e.tokens[s - 2] == Separator(kind))
            && (!kind.RobertaKind? ==> e.tokens[s - 1] == Separator(kind))
            && Separator(kind) !in e.tokens[..if kind.RobertaKind? then s - 2 else s - 1]
  {
  }

  /** With no separator at all the question length is -2 and the context
      "starts" at 0 (WordPiece) or 1 (RoBERTa). */
  lemma NoSeparator(kind: TokenizerKind, e: Encoding)
    requires Separator(kind) !in e.tokens
    ensures QuestionLength(kind, e) == -2
    ensures ContextStartIndex(kind, e) == if kind.RobertaKind? then 1 else 0
  {
  }

  /** The end index spans exactly the context length, and it does not depend on
      the question length: it is the real length plus the offset, minus one. */
  lemma ContextEndArithmetic(kind: TokenizerKind, e: Encoding)
    ensures var added := AddedTokens(e.specialTokensMask);
            ContextEndIndex(kind, e) - ContextStartIndex(kind, e) + 1
              == |e.tokens| - added - QuestionLength(kind, e)
    ensures var added := AddedTokens(e.specialTokensMask);
            ContextEndIndex(kind, e) == |e.tokens| - added + ContextOffset(kind) - 1
  {
  }

  /** A special token option: a plain string or a library `AddedToken`, with
      its content, the boolean second argument of `new AddedToken` and the
      `leftStrip` option; what the library does with the flags is not part of
      this model. */
  datatype Token = Str(s: string) | Added(content: string, flag: bool, leftStrip: bool)

  /** `getTokenContent` */
  function Content(t: Token): string {
    match t
    case Str(s) => s
    case Added(c, _, _) => c
  }

  /** Truthiness of an optional token: objects are truthy, strings unless empty. */
  predicate TokenTruthy(t: Option<Token>) {
    t.Some? && (t.value.Added? || t.value.s != "")
  }

  function TokenGet(m: map<string, Token>, k: string): Option<Token> {
    if k in m then Some(m[k]) else None
  }

  /** The options every tokenizer class receives from the factory; the special
      tokens are keyed by option name ("clsToken", "sepToken", ...). */
  datatype TokenizerOptions = TokenizerOptions(
    lowercase: Option<bool>, mergesFile: Option<string>, filesDir: string,
    modelType: Option<Models.ModelType>, vocabFile: Option<string>, tokens: map<string, Token>)

  /** The special tokens `BertTokenizer.fromOptions` copies, in order. */
  const BertTokenKeys: seq<string> := ["clsToken", "maskToken", "padToken", "sepToken", "unkToken"]

  /** `BertWordPieceOptions` as built by `BertTokenizer.fromOptions`. */
  datatype WordPieceOptions = WordPieceOptions(vocabFile: string, lowercase: Option<bool>,
                                               tokens: map<string, Token>)

  /** The vocab precedence shared by BERT and DistilBERT: an explicit (truthy)
      path, else `dir/vocab.txt` when it exists, else the default path. An
      explicit empty path is falsy and, when no file exists, survives the `??`. */
  function WordPieceVocabPath(explicit: Option<string>, dir: string, existing: set<string>,
                              defaultPath: string): string
  {
    if Truthy(explicit) then explicit.value
    else if PathJoin(dir, "vocab.txt") in existing then PathJoin(dir, "vocab.txt")
    else explicit.GetOr(defaultPath)
  }

  lemma WordPieceVocabPrecedence(explicit: Option<string>, dir: string, existing: set<string>,
                                 defaultPath: string)
    ensures Truthy(explicit) ==> WordPieceVocabPath(explicit, dir, existing, defaultPath) == explicit.value
    ensures !Truthy(explicit) && PathJoin(dir, "vocab.txt") in existing ==>
              WordPieceVocabPath(explicit, dir, existing, defaultPath) == PathJoin(dir, "vocab.txt")
    ensures explicit.None? && PathJoin(dir, "vocab.txt") !in existing ==>
              WordPieceVocabPath(explicit, dir, existing, defaultPath) == defaultPath
    ensures explicit == Some("") && PathJoin(dir, "vocab.txt") !in existing ==>
              WordPieceVocabPath(explicit, dir, existing, defaultPath) == ""
  {
  }

  /** The copy loop of `BertTokenizer.fromOptions`: only truthy options among
      `keys` are copied, unchanged. */
  method CopyTruthyTokens(options: map<string, Token>, keys: seq<string>) returns (copied: map<string, Token>)
    ensures forall k :: k in copied <==> k in keys && TokenTruthy(TokenGet(options, k))
    ensures forall k :: k in copied ==> k in options && copied[k] == options[k]
  {
    copied := map[];
    var i := 0;
    while i < |keys|
      invariant 0 <= i <= |keys|
      invariant forall k :: k in copied <==> k in keys[..i] && TokenTruthy(TokenGet(options, k))
      invariant forall k :: k in copied ==> k in options && copied[k] == options[k]
    {
      var k := keys[i];
      if TokenTruthy(TokenGet(options, k)) {
        copied := copied[k := options[k]];
      }
      assert keys[..i + 1] == keys[..i] + [k];
      i := i + 1;
    }
    assert keys[..i] == keys;
  }

  /** `BertTokenizer.fromOptions`, up to the library call. */
  method BertFromOptions(options: TokenizerOptions, existing: set<string>, defaultVocabPath: string)
    returns (w: WordPieceOptions)
    ensures w.vocabFile == WordPieceVocabPath(options.vocabFile, options.filesDir, existing, defaultVocabPath)
    ensures w.lowercase == options.lowercase
    ensures forall k :: k in w.tokens <==> k in BertTokenKeys && TokenTruthy(TokenGet(options.tokens, k))
    ensures forall k :: k in w.tokens ==> k in options.tokens && w.tokens[k] == options.tokens[k]
  {
    var vocabPath := options.vocabFile;
    if !Truthy(vocabPath) {
      var fullPath := PathJoin(options.filesDir, "vocab.txt");
      if fullPath in existing {
        vocabPath := Some(fullPath);
      }
      vocabPath := Some(vocabPath.GetOr(defaultVocabPath));
    }
    var tokens := CopyTruthyTokens(options.tokens, BertTokenKeys);
    w := WordPieceOptions(vocabPath.value, options.lowercase, tokens);
  }

  /** The options of the older `DistilbertTokenizer.fromOptions`. */
  datatype DistilbertOptions = DistilbertOptions(vocabPath: Option<string>, modelPath: string,
                                                 lowercase: Option<bool>)

  /** `DistilbertTokenizer.fromOptions`, up to the library call. */
  function DistilbertFromOptions(options: DistilbertOptions, existing: set<string>, defaultVocabPath: string)
    : (w: WordPieceOptions)
    ensures w.vocabFile == WordPieceVocabPath(options.vocabPath, options.modelPath, existing, defaultVocabPath)
    ensures w.lowercase == options.lowercase && w.tokens == map[]
  {
    var vocabPath :=
      if Truthy(options.vocabPath) then options.vocabPath
      else
        var fullPath := PathJoin(options.modelPath, "vocab.txt");
        var found := if fullPath in existing then Some(fullPath) else options.vocabPath;
        Some(found.GetOr(defaultVocabPath));
    WordPieceOptions(vocabPath.value, options.lowercase, map[])
  }

  datatype TokenizerError = MissingVocabFile | MissingMergesFile | NoTypeNorName

  /** What `RobertaTokenizer.fromOptions` settles on before the library calls. */
  datatype RobertaSetup = RobertaSetup(vocabFile: string, mergesFile: string,
                                       clsToken: Token, eosToken: Token, maskToken: Token,
                                       padToken: Token, unkToken: Token)

  /** An explicit truthy file, else `dir/name` when it exists. */
  function FindFile(explicit: Option<string>, dir: string, name: string, existing: set<string>): Option<string> {
    if Truthy(explicit) then explicit
    else if PathJoin(dir, name) in existing then Some(PathJoin(dir, name))
    else None
  }

  const DefaultMask := Added("<mask>", true, true)

  /** `RobertaTokenizer.fromOptions`, up to the library calls. */
  function RobertaFromOptions(options: TokenizerOptions, existing: set<string>)
    : (r: Result<RobertaSetup, TokenizerError>)
    ensures r == Err(MissingVocabFile) <==>
              !Truthy(options.vocabFile) && PathJoin(options.filesDir, "vocab.json") !in existing
    ensures r == Err(MissingMergesFile) <==>
              (Truthy(options.vocabFile) || PathJoin(options.filesDir, "vocab.json") in existing)
              && !Truthy(options.mergesFile) && PathJoin(options.filesDir, "merges.txt") !in existing
    ensures r.Ok? ==>
              && r.value.vocabFile == (if Truthy(options.vocabFile) then options.vocabFile.value
                                       else PathJoin(options.filesDir, "vocab.json"))
              && r.value.mergesFile == (if Truthy(options.mergesFile) then options.mergesFile.value
                                        else PathJoin(options.filesDir, "merges.txt"))
    // a special token takes its default only when the option is absent
    ensures r.Ok? ==>
              && r.value.clsToken == TokenGet(options.tokens, "clsToken").GetOr(Str("<s>"))
              && r.value.eosToken == TokenGet(options.tokens, "eosToken").GetOr(Str("</s>"))
              && r.value.maskToken == TokenGet(options.tokens, "maskToken").GetOr(DefaultMask)
              && r.value.padToken == TokenGet(options.tokens, "padToken").GetOr(Str("<pad>"))
              && r.value.unkToken == TokenGet(options.tokens, "unkToken").GetOr(Str("<unk>"))
  {
    match FindFile(options.vocabFile, options.filesDir, "vocab.json", existing)
    case None => Err(MissingVocabFile)
    case Some(vocabFile) =>
      match FindFile(options.mergesFile, options.filesDir, "merges.txt", existing)
      case None => Err(MissingMergesFile)
      case Some(mergesFile) =>
        Ok(RobertaSetup(vocabFile, mergesFile,
                        TokenGet(options.tokens, "clsToken").GetOr(Str("<s>")),
                        TokenGet(options.tokens, "eosToken").GetOr(Str("</s>")),
                        TokenGet(options.tokens, "maskToken").GetOr(DefaultMask),
                        TokenGet(options.tokens, "padToken").GetOr(Str("<pad>")),
                        TokenGet(options.tokens, "unkToken").GetOr(Str("<unk>"))))
  }

  /** The separator a RoBERTa tokenizer searches for is the content of its EOS
      token, by default "</s>". */
  lemma RobertaDefaultEos(options: TokenizerOptions, existing: set<string>)
    requires "eosToken" !in options.tokens
    requires RobertaFromOptions(options, existing).Ok?
    ensures Content(RobertaFromOptions(options, existing).value.eosToken) == "</s>"
  {
  }
}
