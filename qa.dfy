/** `QAClient` of qa.ts: answer-span selection in `predict`, and the model
    parameters of `getModelParams`.

    The tokenizer's encoding (tokens and type ids, already padded) and the
    softmax probabilities of the start and end logits are inputs: `predict`
    ranks the context positions by probability and answers with the first
    (start, end) pair in rank order that is ordered and short enough. */
module QA {
  import opened Js
  import opened MetaGraph
  import opened Runtime
  import opened Models

  // ---------------------------------------------------------------- context bounds

  /** `typeIds.findIndex((x, i) => i > after && x === v)`. */
  function FindAfter(typeIds: seq<int>, v: int, after: int): (r: int)
    ensures -1 <= r < |typeIds|
    ensures r == -1 <==> forall i :: 0 <= i < |typeIds| && i > after ==> typeIds[i] != v
    ensures r >= 0 ==> r > after && typeIds[r] == v && forall i :: 0 <= i < r && after < i ==> typeIds[i] != v
    decreases |typeIds|
  {
    if typeIds == [] then -1
    else
      var k := FindAfter(typeIds[..|typeIds| - 1], v, after);
      if k >= 0 then k
      else if |typeIds| - 1 > after && typeIds[|typeIds| - 1] == v then |typeIds| - 1
      else -1
  }

  /** `[contextFirstIndex, contextLastIndex]`: the first type-1 index, and one
      before the first later type-0 index (-2 when there is none). */
  function ContextBounds(typeIds: seq<int>): (b: (int, int))
    ensures -1 <= b.0 < |typeIds|
    ensures b.0 == -1 <==> 1 !in typeIds
    ensures b.0 >= 0 ==> typeIds[b.0] == 1 && forall i :: 0 <= i < b.0 ==> typeIds[i] != 1
    ensures b.1 == -2 <==> forall i :: 0 <= i < |typeIds| && b.0 < i ==> typeIds[i] != 0
    ensures b.1 != -2 ==> b.0 <= b.1 && b.1 + 1 < |typeIds| && typeIds[b.1 + 1] == 0
                          && forall i :: 0 <= i <= b.1 && b.0 < i ==> typeIds[i] != 0
  {
    var first := FindAfter(typeIds, 1, -1);
    (first, FindAfter(typeIds, 0, first) - 1)
  }

  // ---------------------------------------------------------------- candidates

  /** `[position, probability]` */
  type Candidate = (int, real)

  /** The order a stable descending sort gives to position-ordered candidates:
      higher probability first, ties in position order. */
  predicate Before(a: Candidate, b: Candidate) {
    a.1 > b.1 || (a.1 == b.1 && a.0 < b.0)
  }

  predicate Ordered(r: seq<Candidate>) {
    forall i, j :: 0 <= i < j < |r| ==> Before(r[i], r[j])
  }

  predicate PositionsIncreasing(s: seq<Candidate>) {
    forall i, j :: 0 <= i < j < |s| ==> s[i].0 < s[j].0
  }

  /** One step of a stable insertion sort with comparator `b[1] - a[1]`: `x`
      goes after every element of `r` that compares strictly before it. */
  function Insert(x: Candidate, r: seq<Candidate>): (o: seq<Candidate>)
    ensures multiset(o) == multiset(r) + multiset{x}
  {
    if r == [] || !(r[0].1 > x.1) then [x] + r
    else
      assert r == [r[0]] + r[1..];
      [r[0]] + Insert(x, r[1..])
  }

  /** `.sort((a, b) => b[1] - a[1])`, which is stable. */
  function SortByProb(s: seq<Candidate>): (r: seq<Candidate>)
    ensures multiset(r) == multiset(s)
  {
    if s == [] then []
    else
      assert s == [s[0]] + s[1..];
      Insert(s[0], SortByProb(s[1..]))
  }

  /** An ordered sequence stays ordered behind an element that comes before
      all of it. */
  lemma OrderedCons(a: Candidate, rest: seq<Candidate>)
    requires Ordered(rest)
    requires forall k :: 0 <= k < |rest| ==> Before(a, rest[k])
    ensures Ordered([a] + rest)
  {
    var o := [a] + rest;
    forall i, j | 0 <= i < j < |o| ensures Before(o[i], o[j]) {
      if i == 0 {
        assert o[j] == rest[j - 1];
      } else {
        assert o[i] == rest[i - 1] && o[j] == rest[j - 1];
      }
    }
  }

  lemma {:induction false} InsertOrdered(x: Candidate, r: seq<Candidate>)
    requires Ordered(r)
    requires forall k :: 0 <= k < |r| ==> x.0 < r[k].0
    ensures Ordered(Insert(x, r))
    decreases |r|
  {
    if r == [] || !(r[0].1 > x.1) {
      forall k | 0 <= k < |r| ensures Before(x, r[k]) {
        if k > 0 {
          assert Before(r[0], r[k]);
        }
      }
      OrderedCons(x, r);
    } else {
      assert Ordered(r[1..]);
      InsertOrdered(x, r[1..]);
      var rest := Insert(x, r[1..]);
      forall k | 0 <= k < |rest| ensures Before(r[0], rest[k]) {
        var y := rest[k];
        assert y in multiset(rest);
        if y != x {
          assert y in multiset(r[1..]);
          var m :| 0 <= m < |r[1..]| && r[1..][m] == y;
          assert r[m + 1] == y;
        }
      }
      OrderedCons(r[0], rest);
    }
  }

  /** Sorting position-ordered candidates gives the (probability descending,
      position ascending) order, and a permutation of the input. */
  lemma {:induction false} SortOrdered(s: seq<Candidate>)
    requires PositionsIncreasing(s)
    ensures Ordered(SortByProb(s)) && multiset(SortByProb(s)) == multiset(s)
    decreases |s|
  {
    if s != [] {
      assert PositionsIncreasing(s[1..]);
      SortOrdered(s[1..]);
      var r := SortByProb(s[1..]);
      forall k | 0 <= k < |r| ensures s[0].0 < r[k].0 {
        assert r[k] in multiset(s[1..]);
        var j :| 0 <= j < |s[1..]| && s[1..][j] == r[k];
        assert s[j + 1] == r[k];
      }
      InsertOrdered(s[0], r);
    }
  }

  /** `.map((val, i) => [i + contextFirstIndex, val])` */
  function Positioned(vals: seq<real>, first: int): (s: seq<Candidate>)
    ensures |s| == |vals| && PositionsIncreasing(s)
    ensures forall k :: 0 <= k < |vals| ==> s[k] == (k + first, vals[k])
  {
    seq(|vals|, k requires 0 <= k < |vals| => (k + first, vals[k]))
  }

  /** The ranked candidates of one probability vector. */
  function Candidates(probs: seq<real>, first: int, last: int): (c: seq<Candidate>)
    ensures multiset(c) == multiset(Positioned(Slice(probs, first, last), first))
    ensures Ordered(c)
  {
    var p := Positioned(Slice(probs, first, last), first);
    SortOrdered(p);
    SortByProb(p)
  }

  /** An element of a permutation of `p` is an element of `p`. */
  lemma PermutationMember(c: Candidate, r: seq<Candidate>, p: seq<Candidate>)
    requires multiset(r) == multiset(p) && c in r
    ensures c in p
  {
    assert c in multiset(r);
  }

  /** A positioned value carries the value at its position. */
  lemma PositionedMember(vals: seq<real>, first: int, c: Candidate)
    requires c in Positioned(vals, first)
    ensures first <= c.0 < first + |vals| && c.1 == vals[c.0 - first]
  {
    var p := Positioned(vals, first);
    var k :| 0 <= k < |p| && p[k] == c;
  }

  /** A candidate at a non-negative context start `first` is a position
      inside the slice, carrying that position's probability. */
  lemma CandidatePositions(probs: seq<real>, first: int, last: int)
    requires 0 <= first
    ensures forall c :: c in Candidates(probs, first, last) ==>
              first <= c.0 < SliceBound(last, |probs|) && c.1 == probs[c.0]
  {
    var sl := Slice(probs, first, last);
    var cs := Candidates(probs, first, last);
    if first <= |probs| {
      assert SliceBound(first, |probs|) == first;
      forall c | c in cs
        ensures first <= c.0 < SliceBound(last, |probs|) && c.1 == probs[c.0]
      {
        PermutationMember(c, cs, Positioned(sl, first));
        PositionedMember(sl, first, c);
        assert sl[c.0 - first] == probs[first + (c.0 - first)];
      }
    } else {
      assert |sl| == 0;
      forall c | c in cs ensures false {
        PermutationMember(c, cs, Positioned(sl, first));
      }
    }
  }

  /** The positions ranked are those of the context except its last token:
      each lies in [contextFirstIndex, contextLastIndex), where the type id is
      not 0. With no type-0 token after the context, the slice end -2 counts
      from the end and drops the last two positions. */
  lemma ContextCandidates(typeIds: seq<int>, probs: seq<real>)
    requires 1 in typeIds && |probs| == |typeIds|
    ensures var b := ContextBounds(typeIds);
            b.1 != -2 ==> forall c :: c in Candidates(probs, b.0, b.1) ==>
                            b.0 <= c.0 < b.1 && typeIds[c.0] != 0 && c.1 == probs[c.0]
    ensures var b := ContextBounds(typeIds);
            b.1 == -2 ==> forall c :: c in Candidates(probs, b.0, b.1) ==>
                            b.0 <= c.0 < |probs| - 2 && c.1 == probs[c.0]
  {
    var b := ContextBounds(typeIds);
    CandidatePositions(probs, b.0, b.1);
    forall c | c in Candidates(probs, b.0, b.1) && b.1 != -2 ensures typeIds[c.0] != 0 {
      if c.0 > b.0 {
        assert b.0 < c.0 <= b.1;
      }
    }
  }

  // ---------------------------------------------------------------- span search

  /** The two `continue` checks: the end is not before the start, and the span
      has at most `maxLen` tokens. */
  predicate ValidSpan(s: int, e: int, maxLen: int) {
    !(e < s) && !(e - s + 1 > maxLen)
  }

  predicate NoValidPair(starts: seq<Candidate>, ends: seq<Candidate>, maxLen: int) {
    forall i, j :: 0 <= i < |starts| && 0 <= j < |ends| ==> !ValidSpan(starts[i].0, ends[j].0, maxLen)
  }

  /** (i, j) is the first valid pair in (start rank, end rank) order. */
  predicate IsFirstValid(starts: seq<Candidate>, ends: seq<Candidate>, maxLen: int, i: int, j: int) {
    && 0 <= i < |starts| && 0 <= j < |ends| && ValidSpan(starts[i].0, ends[j].0, maxLen)
    && forall i', j' :: 0 <= i' < |starts| && 0 <= j' < |ends| && (i' < i || (i' == i && j' < j)) ==>
         !ValidSpan(starts[i'].0, ends[j'].0, maxLen)
  }

  /** There is only one first valid pair. */
  lemma FirstValidUnique(starts: seq<Candidate>, ends: seq<Candidate>, maxLen: int, i: int, j: int, k: int, l: int)
    requires IsFirstValid(starts, ends, maxLen, i, j) && IsFirstValid(starts, ends, maxLen, k, l)
    ensures i == k && j == l
  {
  }

  /** The nested loops of `predict`: the first (start, end) pair that passes
      both checks, or none when no pair does. */
  method FindSpan(starts: seq<Candidate>, ends: seq<Candidate>, maxLen: int) returns (r: Option<(nat, nat)>)
    ensures r.None? <==> NoValidPair(starts, ends, maxLen)
    ensures r.Some? ==> IsFirstValid(starts, ends, maxLen, r.value.0, r.value.1)
  {
    var i := 0;
    while i < |starts|
      invariant 0 <= i <= |starts|
      invariant forall i', j' :: 0 <= i' < i && 0 <= j' < |ends| ==> !ValidSpan(starts[i'].0, ends[j'].0, maxLen)
    {
      var j := 0;
      while j < |ends|
        invariant 0 <= j <= |ends|
        invariant forall j' :: 0 <= j' < j ==> !ValidSpan(starts[i].0, ends[j'].0, maxLen)
      {
        if ends[j].0 < starts[i].0 {
          j := j + 1;
          continue;
        }
        if ends[j].0 - starts[i].0 + 1 > maxLen {
          j := j + 1;
          continue;
        }
        return Some((i, j));
      }
      i := i + 1;
    }
    return None;
  }

  // ---------------------------------------------------------------- answer text

  /** `tokens[i]`; an index outside the array reads `undefined`, which `join`
      renders as the empty string. */
  function TokenAt(tokens: seq<string>, i: int): string {
    if 0 <= i < |tokens| then tokens[i] else ""
  }

  /** The tokens from `s` to `e` inclusive. */
  function SpanTokens(tokens: seq<string>, s: int, e: int): (r: seq<string>)
    ensures |r| == if e < s then 0 else e - s + 1
  {
    if e < s then [] else seq(e - s + 1, k requires 0 <= k < e - s + 1 => TokenAt(tokens, s + k))
  }

  /** Inside the array, the span is exactly the slice `tokens[s..e]` inclusive. */
  lemma SpanTokensInRange(tokens: seq<string>, s: int, e: int)
    requires 0 <= s <= e < |tokens|
    ensures SpanTokens(tokens, s, e) == tokens[s..e + 1]
  {
    forall k | 0 <= k < e - s + 1 ensures SpanTokens(tokens, s, e)[k] == tokens[s..e + 1][k] {
      assert SpanTokens(tokens, s, e)[k] == TokenAt(tokens, s + k);
    }
  }

  /** The loop that pushes `tokens[i]` for `i` from start to end. */
  method GatherText(tokens: seq<string>, s: int, e: int) returns (text: seq<string>)
    ensures text == SpanTokens(tokens, s, e)
  {
    text := [];
    var i := s;
    while i <= e
      invariant s <= i && (s <= e ==> i <= e + 1)
      invariant e < s ==> text == []
      invariant text == seq(i - s, k requires 0 <= k < i - s => TokenAt(tokens, s + k))
      decreases e + 1 - i
    {
      text := text + [TokenAt(tokens, i)];
      i := i + 1;
    }
  }

  /** `text.join(" ")` */
  function Join(parts: seq<string>): string {
    if |parts| == 0 then ""
    else if |parts| == 1 then parts[0]
    else parts[0] + " " + Join(parts[1..])
  }

  /** Splitting at every space: the inverse of `Join` for parts without spaces. */
  function Split(s: string): (r: seq<string>)
    ensures |r| >= 1
    decreases |s|
  {
    var i := IndexOf(s, ' ');
    if i < 0 then [s] else [s[..i]] + Split(s[i + 1..])
  }

  /** The first space of `p + " " + rest` is the one after `p`, when `p` has none. */
  lemma SpaceAfterFirst(p: string, rest: string)
    requires ' ' !in p
    ensures var s := p + " " + rest;
            IndexOf(s, ' ') == |p| && s[..|p|] == p && s[|p| + 1..] == rest
  {
    var s := p + " " + rest;
    assert s[|p|] == ' ';
    assert s[..|p|] == p;
    assert s[|p| + 1..] == rest;
  }

  /** Joining with single spaces loses nothing when no token holds a space:
      the tokens can be read back from the answer text. */
  lemma {:induction false} SplitJoin(parts: seq<string>)
    requires |parts| >= 1
    requires forall k :: 0 <= k < |parts| ==> ' ' !in parts[k]
    ensures Split(Join(parts)) == parts
    decreases |parts|
  {
    if |parts| > 1 {
      SpaceAfterFirst(parts[0], Join(parts[1..]));
      SplitJoin(parts[1..]);
      assert Split(Join(parts)) == [parts[0]] + Split(Join(parts[1..]));
      assert parts == [parts[0]] + parts[1..];
    } else {
      assert IndexOf(parts[0], ' ') == -1;
    }
  }

  datatype Answer = Answer(text: string, score: real)

  /** The answer for a start and an end candidate: the span's tokens joined
      by spaces, scored by the product of the two probabilities. */
  function AnswerOf(tokens: seq<string>, start: Candidate, end: Candidate): Answer {
    Answer(Join(SpanTokens(tokens, start.0, end.0)), start.1 * end.1)
  }

  /** `answer` is what `predict` promises for ranked `starts` and `ends`: null
      exactly when no pair is valid, otherwise the answer of the first valid
      pair. */
  predicate Answers(tokens: seq<string>, starts: seq<Candidate>, ends: seq<Candidate>, maxLen: int,
                    answer: Option<Answer>) {
    && (answer.None? <==> NoValidPair(starts, ends, maxLen))
    && (answer.Some? ==>
          exists i, j :: 0 <= i < |starts| && 0 <= j < |ends| && IsFirstValid(starts, ends, maxLen, i, j)
                         && answer.value == AnswerOf(tokens, starts[i], ends[j]))
  }

  lemma AnswersSome(tokens: seq<string>, starts: seq<Candidate>, ends: seq<Candidate>, maxLen: int, i: nat, j: nat)
    requires IsFirstValid(starts, ends, maxLen, i, j)
    ensures Answers(tokens, starts, ends, maxLen, Some(AnswerOf(tokens, starts[i], ends[j])))
  {
    assert ValidSpan(starts[i].0, ends[j].0, maxLen);
  }

  /** `predict(question, context, maxAnswerLength = 15)` from the encoding
      onwards: the answer is the first valid (start, end) pair of the ranked
      candidates, with the tokens of the span joined by spaces and the
      product of the two probabilities, and null exactly when no pair is
      valid. */
  method Predict(tokens: seq<string>, typeIds: seq<int>, startProbs: seq<real>, endProbs: seq<real>,
                 maxAnswerLength: Option<int>) returns (answer: Option<Answer>)
    ensures var b := ContextBounds(typeIds);
            Answers(tokens, Candidates(startProbs, b.0, b.1), Candidates(endProbs, b.0, b.1),
                    maxAnswerLength.GetOr(15), answer)
  {
    var bounds := ContextBounds(typeIds);
    var starts := Candidates(startProbs, bounds.0, bounds.1);
    var ends := Candidates(endProbs, bounds.0, bounds.1);
    answer := ChooseAnswer(tokens, starts, ends, maxAnswerLength.GetOr(15));
  }

  /** The answer of the first valid pair of ranked candidates, if any. */
  method ChooseAnswer(tokens: seq<string>, starts: seq<Candidate>, ends: seq<Candidate>, maxLen: int)
    returns (answer: Option<Answer>)
    ensures Answers(tokens, starts, ends, maxLen, answer)
  {
    var pair := FindSpan(starts, ends, maxLen);
    if pair.None? {
      return None;
    }
    var i, j := pair.value.0, pair.value.1;
    var text := GatherText(tokens, starts[i].0, ends[j].0);
    answer := Some(Answer(Join(text), starts[i].1 * ends[j].1));
    AnswersSome(tokens, starts, ends, maxLen, i, j);
  }

  /** Any answer spans at least one and at most `maxAnswerLength` tokens of
      the context, start before end, and its text reads back as those tokens. */
  lemma AnswerSpan(tokens: seq<string>, starts: seq<Candidate>, ends: seq<Candidate>, maxLen: int, i: int, j: int)
    requires IsFirstValid(starts, ends, maxLen, i, j)
    requires 0 <= starts[i].0 && ends[j].0 < |tokens|
    requires forall k :: 0 <= k < |tokens| ==> ' ' !in tokens[k]
    ensures starts[i].0 <= ends[j].0 && 1 <= ends[j].0 - starts[i].0 + 1 <= maxLen
    ensures Split(Join(SpanTokens(tokens, starts[i].0, ends[j].0))) == tokens[starts[i].0..ends[j].0 + 1]
  {
    SpanTokensInRange(tokens, starts[i].0, ends[j].0);
    SplitJoin(tokens[starts[i].0..ends[j].0 + 1]);
  }

  // ---------------------------------------------------------------- model parameters

  datatype QaModelOptions = QaModelOptions(inputsNames: ModelInputOverrides, outputsNames: OutputOverrides,
                                           path: string, signatureName: Option<string>)

  /** The shape is the signature's raw shape of the ids input, unnormalised. */
  datatype QaModelParams = QaModelParams(inputsNames: ModelInputNames, outputsNames: OutputNames,
                                         path: string, shape: Option<seq<Dim>>, signatureName: string)

  /** `DEFAULT_MODEL`, for the bundled model directory `modelPath`. */
  function DefaultModel(modelPath: string): QaModelParams {
    QaModelParams(ModelInputNames("attention_mask", "input_ids"), OutputNames("output_0", "output_1"),
                  modelPath, Some([Num(1), Num(384)]), "serving_default")
  }

  /** `partialParams` with the path: each name is the option or the default. */
  function Resolved(options: QaModelOptions): QaModelParams {
    var d := DefaultModel("");
    QaModelParams(ModelInputNames(options.inputsNames.attentionMask.GetOr(d.inputsNames.attentionMask),
                                  options.inputsNames.ids.GetOr(d.inputsNames.ids)),
                  OutputNames(options.outputsNames.startLogits.GetOr(d.outputsNames.startLogits),
                              options.outputsNames.endLogits.GetOr(d.outputsNames.endLogits)),
                  options.path, None, options.signatureName.GetOr(d.signatureName))
  }

  /** The client resolves its names as the model layer does against
      `MODEL_DEFAULTS`, whose names and signature `DEFAULT_MODEL` repeats:
      every name and the signature are the caller's option, else that
      default, and only the raw shape is left to be read. */
  lemma ResolvedMatchesModelLayer(options: QaModelOptions)
    ensures var p := Models.Resolve(ModelOptions(None, options.inputsNames, options.outputsNames,
                                                 options.path, options.signatureName), Models.ModelDefaults);
            var q := Resolved(options);
            && q.inputsNames == p.inputsNames && q.outputsNames == p.outputsNames
            && q.signatureName == p.signatureName && q.path == p.path && q.shape.None?
    // with no option set, the client resolves exactly the names of `DEFAULT_MODEL`
    ensures (options.inputsNames == ModelInputOverrides(None, None) && options.outputsNames == NoOutputOverrides
             && options.signatureName.None?) ==> Resolved(options) == DefaultModel(options.path).(shape := None)
  {
  }

  /** `getModelParams` as written: the `for ... in` loops check the property
      keys of `inputsNames` and `outputsNames` against the signature, not the
      configured names. Reading the shape of a configured ids name that the
      signature lacks is a `TypeError`. */
  function GetModelParamsAsWritten(options: QaModelOptions, graph: PartialMetaGraph)
    : (r: Result<QaModelParams, ParamsError>)
    ensures var p := Resolved(options);
            (r == Err(NoSignature(p.signatureName))) <==> p.signatureName !in graph.signatureDefs
    ensures var p := Resolved(options);
            r.Ok? <==> && p.signatureName in graph.signatureDefs
                       && "attentionMask" in graph.signatureDefs[p.signatureName].inputs
                       && "ids" in graph.signatureDefs[p.signatureName].inputs
                       && "endLogits" in graph.signatureDefs[p.signatureName].outputs
                       && "startLogits" in graph.signatureDefs[p.signatureName].outputs
                       && p.inputsNames.ids in graph.signatureDefs[p.signatureName].inputs
    ensures r.Err? && r.error.NoInput? ==> r.error.name in {"attentionMask", "ids"}
    ensures r.Err? && r.error.NoOutput? ==> r.error.name in {"endLogits", "startLogits"}
    ensures var p := Resolved(options);
            r.Ok? ==> r.value == p.(shape := graph.signatureDefs[p.signatureName].inputs[p.inputsNames.ids].shape)
  {
    var p := Resolved(options);
    match CheckSignature(graph, p.signatureName, ["attentionMask", "ids"], ["endLogits", "startLogits"])
    case Err(e) => Err(e)
    case Ok(sig) =>
      assert "attentionMask" == ["attentionMask", "ids"][0] && "ids" == ["attentionMask", "ids"][1];
      assert "endLogits" == ["endLogits", "startLogits"][0] && "startLogits" == ["endLogits", "startLogits"][1];
      if p.inputsNames.ids !in sig.inputs then Err(ShapeTypeError)
      else Ok(p.(shape := sig.inputs[p.inputsNames.ids].shape))
  }

  /** `getModelParams` with the checks on the configured names, which the
      error messages ("No input matching name") and the defaults call for. */
  function GetModelParams(options: QaModelOptions, graph: PartialMetaGraph)
    : (r: Result<QaModelParams, ParamsError>)
    ensures var p := Resolved(options);
            (r == Err(NoSignature(p.signatureName))) <==> p.signatureName !in graph.signatureDefs
    ensures var p := Resolved(options);
            r.Ok? <==> && p.signatureName in graph.signatureDefs
                       && p.inputsNames.attentionMask in graph.signatureDefs[p.signatureName].inputs
                       && p.inputsNames.ids in graph.signatureDefs[p.signatureName].inputs
                       && p.outputsNames.endLogits in graph.signatureDefs[p.signatureName].outputs
                       && p.outputsNames.startLogits in graph.signatureDefs[p.signatureName].outputs
    ensures var p := Resolved(options);
            r.Err? && r.error.NoInput? ==>
              && r.error.name in {p.inputsNames.attentionMask, p.inputsNames.ids}
              && r.error.name !in graph.signatureDefs[p.signatureName].inputs
    ensures var p := Resolved(options);
            r.Err? && r.error.NoOutput? ==>
              && r.error.name in {p.outputsNames.endLogits, p.outputsNames.startLogits}
              && r.error.name !in graph.signatureDefs[p.signatureName].outputs
    ensures var p := Resolved(options);
            r.Ok? ==> r.value == p.(shape := graph.signatureDefs[p.signatureName].inputs[p.inputsNames.ids].shape)
  {
    var p := Resolved(options);
    var inNames := [p.inputsNames.attentionMask, p.inputsNames.ids];
    var outNames := [p.outputsNames.endLogits, p.outputsNames.startLogits];
    match CheckSignature(graph, p.signatureName, inNames, outNames)
    case Err(e) => Err(e)
    case Ok(sig) =>
      assert inNames[0] in sig.inputs && inNames[1] in sig.inputs;
      assert outNames[0] in sig.outputs && outNames[1] in sig.outputs;
      Ok(p.(shape := sig.inputs[p.inputsNames.ids].shape))
  }

  /** The first of the meta-graphs `tf.node.getMetaGraphsFromSavedModel(dir)`
      reads, or `NoMetaGraph` when there is none. `savedModels` gives the
      meta-graphs of each directory; reading them can fail in other ways,
      which are not modelled. */
  function FirstGraph(savedModels: string -> seq<PartialMetaGraph>, dir: string)
    : Result<PartialMetaGraph, ParamsError>
  {
    if savedModels(dir) == [] then Err(NoMetaGraph) else Ok(savedModels(dir)[0])
  }

  /** The model parameters of `fromOptions` as written: `DEFAULT_MODEL`
      without model options; otherwise the as-written `getModelParams`
      applied to the first meta-graph of the bundled directory `modelPath`
      (`MODEL_PATH`), not of the custom model's own `path`. */
  function ClientModelParamsAsWritten(model: Option<QaModelOptions>,
                                      savedModels: string -> seq<PartialMetaGraph>, modelPath: string)
    : (r: Result<QaModelParams, ParamsError>)
    ensures model.None? ==> r == Ok(DefaultModel(modelPath))
    ensures model.Some? && savedModels(modelPath) == [] ==> r == Err(NoMetaGraph)
    ensures model.Some? && r.Ok? ==>
              && savedModels(modelPath) != []
              && r == GetModelParamsAsWritten(model.value, savedModels(modelPath)[0])
              && r.value.path == model.value.path
  {
    if model.None? then Ok(DefaultModel(modelPath))
    else
      match FirstGraph(savedModels, modelPath)
      case Err(e) => Err(e)
      case Ok(graph) => GetModelParamsAsWritten(model.value, graph)
  }

  /** As written the custom model's own meta-graph is never read: two
      directory contents that agree on the bundled directory give the same
      result, whatever the custom model's directory holds. */
  lemma ClientAsWrittenReadsBundledGraph(model: Option<QaModelOptions>, savedModels: string -> seq<PartialMetaGraph>,
                                         otherModels: string -> seq<PartialMetaGraph>, modelPath: string)
    requires savedModels(modelPath) == otherModels(modelPath)
    ensures ClientModelParamsAsWritten(model, savedModels, modelPath)
            == ClientModelParamsAsWritten(model, otherModels, modelPath)
  {
  }

  /** When the bundled model's graph holds the default names, every custom
      model is rejected as written, whatever its own graph holds: a signature
      other than "serving_default" is missing from the bundled graph, and
      "serving_default" has no input called "attentionMask". */
  lemma {:induction false} ClientAsWrittenRejectsEveryModel(options: QaModelOptions,
                                                            savedModels: string -> seq<PartialMetaGraph>,
                                                            modelPath: string, shape: seq<Dim>)
    requires savedModels(modelPath) == [DefaultGraph(shape)]
    ensures var r := ClientModelParamsAsWritten(Some(options), savedModels, modelPath);
            && r.Err?
            && (Resolved(options).signatureName != "serving_default" ==>
                  r == Err(NoSignature(Resolved(options).signatureName)))
            && (Resolved(options).signatureName == "serving_default" ==> r == Err(NoInput("attentionMask")))
  {
    var graph := DefaultGraph(shape);
    assert FirstGraph(savedModels, modelPath) == Ok(graph);
    var p := Resolved(options);
    if p.signatureName == "serving_default" {
      var sig := graph.signatureDefs["serving_default"];
      assert "attentionMask" !in sig.inputs;
      assert FirstMissing(["attentionMask", "ids"], sig.inputs.Keys) == Some("attentionMask");
    }
  }

  /** The model parameters of `fromOptions` with both checks corrected:
      `DEFAULT_MODEL` without model options; otherwise the configured names
      checked against the first meta-graph of the custom model's own `path`,
      the directory that is then loaded. */
  function ClientModelParams(model: Option<QaModelOptions>, savedModels: string -> seq<PartialMetaGraph>,
                             modelPath: string)
    : (r: Result<QaModelParams, ParamsError>)
    ensures model.None? ==> r == Ok(DefaultModel(modelPath))
    ensures model.Some? ==>
              var graphs := savedModels(model.value.path);
              var p := Resolved(model.value);
              && (graphs == [] ==> r == Err(NoMetaGraph))
              && (r.Ok? <==> && graphs != []
                             && p.signatureName in graphs[0].signatureDefs
                             && p.inputsNames.attentionMask in graphs[0].signatureDefs[p.signatureName].inputs
                             && p.inputsNames.ids in graphs[0].signatureDefs[p.signatureName].inputs
                             && p.outputsNames.endLogits in graphs[0].signatureDefs[p.signatureName].outputs
                             && p.outputsNames.startLogits in graphs[0].signatureDefs[p.signatureName].outputs)
              && (r.Ok? ==> r.value == p.(shape := graphs[0].signatureDefs[p.signatureName]
                                                          .inputs[p.inputsNames.ids].shape))
  {
    if model.None? then Ok(DefaultModel(modelPath))
    else
      match FirstGraph(savedModels, model.value.path)
      case Err(e) => Err(e)
      case Ok(graph) => GetModelParams(model.value, graph)
  }

  /** With the correction a custom model whose own graph holds its configured
      names is accepted, whatever the bundled model's graph holds. */
  lemma {:induction false} CustomModelAcceptedWhenFixed(options: QaModelOptions,
                                                        savedModels: string -> seq<PartialMetaGraph>,
                                                        modelPath: string, shape: seq<Dim>)
    requires savedModels(options.path) == [DefaultGraph(shape)]
    requires options.inputsNames == ModelInputOverrides(None, None) && options.outputsNames == NoOutputOverrides
    requires options.signatureName.None?
    ensures ClientModelParams(Some(options), savedModels, modelPath)
            == Ok(QaModelParams(ModelInputNames("attention_mask", "input_ids"), OutputNames("output_0", "output_1"),
                                options.path, Some(shape), "serving_default"))
  {
    assert FirstGraph(savedModels, options.path) == Ok(DefaultGraph(shape));
    DefaultGraphRejectedAsWritten(options.path, shape);
  }

  /** A meta-graph holding the default names. */
  function DefaultGraph(shape: seq<Dim>): PartialMetaGraph {
    PartialMetaGraph(map["serving_default" := SignatureDef(
      map["attention_mask" := TensorInfo(Some(shape)), "input_ids" := TensorInfo(Some(shape))],
      {"output_0", "output_1"})])
  }

  /** With no option set and a graph that has exactly the default names, the
      code as written rejects the graph because it has no input called
      "attentionMask"; the corrected check accepts it with the ids shape. */
  lemma DefaultGraphRejectedAsWritten(path: string, shape: seq<Dim>)
    ensures var options := QaModelOptions(ModelInputOverrides(None, None), NoOutputOverrides, path, None);
            && GetModelParamsAsWritten(options, DefaultGraph(shape)) == Err(NoInput("attentionMask"))
            && GetModelParams(options, DefaultGraph(shape)) ==
                 Ok(QaModelParams(ModelInputNames("attention_mask", "input_ids"),
                                  OutputNames("output_0", "output_1"), path, Some(shape), "serving_default"))
  {
    var options := QaModelOptions(ModelInputOverrides(None, None), NoOutputOverrides, path, None);
    var sig := DefaultGraph(shape).signatureDefs["serving_default"];
    assert "attentionMask" !in sig.inputs;
    assert FirstMissing(["attentionMask", "ids"], sig.inputs.Keys) == Some("attentionMask");
  }
}
