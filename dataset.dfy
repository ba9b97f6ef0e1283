/** Preparation of the request list from a conversation dataset (`sample_requests`):
    keep conversations with at least two turns, tokenize their first two turns, prune
    pairs whose token lengths are out of bounds, and draw a sample. */
module Dataset {
  import opened Common
  import opened Seqs

  /** One turn of a conversation; only its "value" text is read. */
  datatype Turn = Turn(value: string)

  /** One record of the dataset file; only its "conversations" list is read. */
  datatype Record = Record(conversations: seq<Turn>)

  /** An entry of the tokenized dataset: the prompt, its token ids and the token count
      of the completion. */
  datatype Tokenized = Tokenized(prompt: string, promptTokenIds: seq<int>, outputLen: nat)

  /** A prepared request: the prompt, its token count and the number of tokens to generate. */
  datatype Request = Request(prompt: string, promptLen: nat, outputLen: nat)

  /** The tokenizer, a foreign library: text to token ids. */
  type Tokenizer = string -> seq<int>

  const MinLen := 4
  const MaxPromptLen := 1024
  const MaxTotalLen := 2048

  predicate HasTwoTurns(r: Record)
  {
    |r.conversations| >= 2
  }

  function FirstTwoTurns(r: Record): (string, string)
    requires HasTwoTurns(r)
  {
    (r.conversations[0].value, r.conversations[1].value)
  }

  /** The (prompt, completion) pairs: the first two turns of every conversation that has
      at least two, in dataset order. */
  function Conversations(dataset: seq<Record>): (pairs: seq<(string, string)>)
    ensures |pairs| <= |dataset|
    ensures |pairs| == |KeptIndices(HasTwoTurns, dataset)|
    ensures forall k :: 0 <= k < |pairs| ==>
      var r := dataset[KeptIndices(HasTwoTurns, dataset)[k]];
      |r.conversations| >= 2 && pairs[k] == (r.conversations[0].value, r.conversations[1].value)
  {
    FilterAtKeptIndices(HasTwoTurns, dataset);
    var kept := Filter(HasTwoTurns, dataset);
    seq(|kept|, k requires 0 <= k < |kept| => FirstTwoTurns(kept[k]))
  }

  /** The tokenized dataset: entry i pairs prompt i with its token ids and the token
      count of completion i. */
  function Tokenization(pairs: seq<(string, string)>, tokenizer: Tokenizer): seq<Tokenized>
  {
    seq(|pairs|, i requires 0 <= i < |pairs| => Tokenized(pairs[i].0, tokenizer(pairs[i].0), |tokenizer(pairs[i].1)|))
  }

  method TokenizeAll(pairs: seq<(string, string)>, tokenizer: Tokenizer) returns (tokenized: seq<Tokenized>)
    ensures |tokenized| == |pairs|
    ensures forall i :: 0 <= i < |pairs| ==>
      && tokenized[i].prompt == pairs[i].0
      && tokenized[i].promptTokenIds == tokenizer(pairs[i].0)
      && tokenized[i].outputLen == |tokenizer(pairs[i].1)|
    ensures tokenized == Tokenization(pairs, tokenizer)
  {
    var prompts := seq(|pairs|, i requires 0 <= i < |pairs| => pairs[i].0);
    var promptTokenIds := seq(|prompts|, i requires 0 <= i < |prompts| => tokenizer(prompts[i]));
    var completions := seq(|pairs|, i requires 0 <= i < |pairs| => pairs[i].1);
    var completionTokenIds := seq(|completions|, i requires 0 <= i < |completions| => tokenizer(completions[i]));
    tokenized := [];
    for i := 0 to |pairs|
      invariant tokenized == Tokenization(pairs[..i], tokenizer)
    {
      var outputLen := |completionTokenIds[i]|;
      tokenized := tokenized + [Tokenized(prompts[i], promptTokenIds[i], outputLen)];
    }
    assert pairs[..|pairs|] == pairs;
  }

  /** The first pruning guard of `sample_requests`: too short for the server. */
  predicate TooShort(promptLen: int, outputLen: int)
  {
    promptLen < MinLen || outputLen < MinLen
  }

  /** The second pruning guard of `sample_requests`: too long for the server. */
  predicate TooLong(promptLen: int, outputLen: int)
  {
    promptLen > MaxPromptLen || promptLen + outputLen > MaxTotalLen
  }

  predicate Survives(t: Tokenized)
  {
    !TooShort(|t.promptTokenIds|, t.outputLen) && !TooLong(|t.promptTokenIds|, t.outputLen)
  }

  function ToRequest(t: Tokenized): Request
  {
    Request(t.prompt, |t.promptTokenIds|, t.outputLen)
  }

  /** The bounds every prepared request satisfies, stated positively. */
  predicate WithinBounds(r: Request)
  {
    && MinLen <= r.promptLen <= MaxPromptLen
    && MinLen <= r.outputLen
    && r.promptLen + r.outputLen <= MaxTotalLen
  }

  /** The pruned dataset: every tokenized entry that passes both guards, as a request,
      in the original order. */
  function Pruned(tokenized: seq<Tokenized>): (requests: seq<Request>)
    ensures forall r :: r in requests ==> WithinBounds(r)
    ensures |requests| == |KeptIndices(Survives, tokenized)|
    ensures forall k :: 0 <= k < |requests| ==> requests[k] == ToRequest(tokenized[KeptIndices(Survives, tokenized)[k]])
    ensures forall i :: 0 <= i < |tokenized| ==> (i in KeptIndices(Survives, tokenized) <==> WithinBounds(ToRequest(tokenized[i])))
  {
    FilterAtKeptIndices(Survives, tokenized);
    SurvivesIffWithinBounds();
    Map(ToRequest, Filter(Survives, tokenized))
  }

  lemma SurvivesIffWithinBounds()
    ensures forall t :: Survives(t) <==> WithinBounds(ToRequest(t))
  {
  }

  method PruneBadLengths(tokenized: seq<Tokenized>) returns (filtered: seq<Request>)
    ensures filtered == Pruned(tokenized)
  {
    filtered := [];
    for i := 0 to |tokenized|
      invariant filtered == Map(ToRequest, Filter(Survives, tokenized[..i]))
    {
      var t := tokenized[i];
      FilterSnoc(Survives, tokenized[..i], t);
      assert tokenized[..i + 1] == tokenized[..i] + [t];
      var promptLen := |t.promptTokenIds|;
      if TooShort(promptLen, t.outputLen) {
        continue;
      }
      if TooLong(promptLen, t.outputLen) {
        continue;
      }
      MapSnoc(ToRequest, Filter(Survives, tokenized[..i]), t);
      filtered := filtered + [Request(t.prompt, promptLen, t.outputLen)];
    }
    assert tokenized[..|tokenized|] == tokenized;
  }

  /** What the random generator guarantees of the positions `random.sample` draws:
      `k` of them, distinct, each inside a population of `n`. */
  predicate DistinctPositions(picks: seq<nat>, k: int, n: int)
  {
    && |picks| == k
    && (forall j :: 0 <= j < |picks| ==> picks[j] < n)
    && (forall j, l :: 0 <= j < l < |picks| ==> picks[j] != picks[l])
  }

  /** `random.sample(population, k)`, with the generator's choice of positions given as
      `picks`: a ValueError unless 0 <= k <= len(population). */
  function Sample(population: seq<Request>, k: int, picks: seq<nat>): (r: Result<seq<Request>, PyError>)
    requires 0 <= k <= |population| ==> DistinctPositions(picks, k, |population|)
    ensures r.Failure? <==> k < 0 || k > |population|
    ensures r.Failure? ==> r.error.ValueError?
    ensures r.Success? ==> |r.value| == k && forall x :: x in r.value ==> x in population
    ensures r.Success? ==> forall j :: 0 <= j < k ==> r.value[j] == population[picks[j]]
  {
    if k < 0 || k > |population| then Failure(ValueError("Sample larger than population or is negative"))
    else Success(seq(k, j requires 0 <= j < k => population[picks[j]]))
  }

  /** The requests a dataset yields before sampling. */
  function Prepared(dataset: seq<Record>, tokenizer: Tokenizer): seq<Request>
  {
    Pruned(Tokenization(Conversations(dataset), tokenizer))
  }

  /** `sample_requests` after the dataset file is read. */
  method SampleRequests(dataset: seq<Record>, numRequests: int, tokenizer: Tokenizer, picks: seq<nat>)
      returns (sampled: Result<seq<Request>, PyError>)
    requires 0 <= numRequests <= |Prepared(dataset, tokenizer)| ==>
      DistinctPositions(picks, numRequests, |Prepared(dataset, tokenizer)|)
    ensures sampled.Success? <==> 0 <= numRequests <= |Prepared(dataset, tokenizer)|
    ensures sampled.Failure? ==> sampled.error.ValueError?
    ensures sampled.Success? ==> |sampled.value| == numRequests
    ensures sampled.Success? ==> forall r :: r in sampled.value ==> r in Prepared(dataset, tokenizer) && WithinBounds(r)
  {
    var pairs := Conversations(dataset);
    var tokenized := TokenizeAll(pairs, tokenizer);
    var filtered := PruneBadLengths(tokenized);
    sampled := Sample(filtered, numRequests, picks);
  }
}
