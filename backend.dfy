/** Backend-specific request shaping: the JSON payload posted by `send_request` and the
    endpoint URL chosen in `main`. */
module Backend {
  import opened Common

  /** The three backend names the client recognises. */
  const Backends: set<string> := {"vllm", "tgi", "triton"}

  /** Backends that take the flat payload. */
  const FlatBackends: seq<string> := ["vllm", "triton"]

  /** The `parameters` object of the TGI payload. */
  datatype TgiParameters = TgiParameters(bestOf: int, maxNewTokens: int, doSample: bool)

  /** The JSON body of a generation request. */
  datatype Payload =
    | Flat(prompt: string, n: int, bestOf: int, temperature: real, topP: real,
           maxTokens: int, ignoreEos: bool, stream: bool)
    | Nested(inputs: string, parameters: TgiParameters)
  {
    /** The prompt text the payload carries, whatever its shape. */
    function PromptText(): string
    {
      if Flat? then prompt else inputs
    }

    /** The number of tokens the payload asks the server to generate. */
    function TokenBudget(): int
    {
      if Flat? then maxTokens else parameters.maxNewTokens
    }

    /** The `best_of` count the payload carries. */
    function BestOfCount(): int
    {
      if Flat? then bestOf else parameters.bestOf
    }
  }

  /** The payload for `backend`, or the ValueError raised for an unknown backend. Every
      payload carries the request's prompt, output length and best_of. */
  function MakePayload(backend: string, prompt: string, outputLen: int, bestOf: int): (r: Result<Payload, PyError>)
    ensures r.Failure? <==> backend !in Backends
    ensures r.Failure? ==> r.error == ValueError("Unknown backend: " + backend)
    ensures r.Success? ==>
      && r.value.PromptText() == prompt
      && r.value.TokenBudget() == outputLen
      && r.value.BestOfCount() == bestOf
    ensures r.Success? ==> (r.value.Flat? <==> backend in FlatBackends)
    ensures r.Success? && r.value.Flat? ==>
      && r.value.n == 1
      && r.value.temperature == 0.0
      && r.value.topP == 1.0
      && r.value.ignoreEos
      && !r.value.stream
    ensures r.Success? && r.value.Nested? ==> r.value.parameters.doSample
  {
    if backend in FlatBackends then
      Success(Flat(prompt, 1, bestOf, 0.0, 1.0, outputLen, true, false))
    else if backend == "tgi" then
      Success(Nested(prompt, TgiParameters(bestOf, outputLen, true)))
    else
      Failure(ValueError("Unknown backend: " + backend))
  }

  /** `tokenizer.replace("-", "_")`. */
  function ModelName(tokenizer: string): (name: string)
    ensures |name| == |tokenizer|
    ensures forall i :: 0 <= i < |name| ==>
      name[i] == if tokenizer[i] == '-' then '_' else tokenizer[i]
    ensures '-' !in name
    decreases |tokenizer|
  {
    if tokenizer == [] then []
    else
      var last := tokenizer[|tokenizer| - 1];
      ModelName(tokenizer[..|tokenizer| - 1]) + [if last == '-' then '_' else last]
  }

  lemma {:induction false} ModelNameIdempotent(tokenizer: string)
    ensures ModelName(ModelName(tokenizer)) == ModelName(tokenizer)
  {
    var once := ModelName(tokenizer);
    var twice := ModelName(once);
    assert forall i :: 0 <= i < |once| ==> once[i] != '-';
    assert forall i :: 0 <= i < |twice| ==> twice[i] == once[i];
  }

  function DigitChar(d: nat): char
    requires d < 10
  {
    ('0' as int + d) as char
  }

  predicate IsDigit(c: char)
  {
    '0' <= c <= '9'
  }

  function DigitValue(c: char): nat
    requires IsDigit(c)
  {
    c as int - '0' as int
  }

  /** The decimal numeral of `n`, without leading zeros. */
  function NatToString(n: nat): (s: string)
    ensures |s| >= 1
    ensures forall i :: 0 <= i < |s| ==> IsDigit(s[i])
    ensures s[0] == '0' ==> n == 0
    decreases n
  {
    if n < 10 then [DigitChar(n)] else NatToString(n / 10) + [DigitChar(n % 10)]
  }

  /** The value of a numeral: the inverse of NatToString. */
  function NumeralValue(s: string): nat
    requires forall i :: 0 <= i < |s| ==> IsDigit(s[i])
    decreases |s|
  {
    if s == [] then 0 else NumeralValue(s[..|s| - 1]) * 10 + DigitValue(s[|s| - 1])
  }

  lemma {:induction false} NatToStringRoundTrip(n: nat)
    ensures NumeralValue(NatToString(n)) == n
    decreases n
  {
    var s := NatToString(n);
    if n >= 10 {
      var prefix, d := NatToString(n / 10), n % 10;
      NatToStringRoundTrip(n / 10);
      assert s == prefix + [DigitChar(d)];
      assert s[..|s| - 1] == prefix;
      assert DigitValue(s[|s| - 1]) == d;
      assert NumeralValue(s) == NumeralValue(prefix) * 10 + d;
    }
  }

  /** Python's `str(i)` for an integer, as an f-string formats `args.port`. */
  function IntToString(i: int): (s: string)
  {
    if i < 0 then "-" + NatToString(-i) else NatToString(i)
  }

  /** Reads back what IntToString writes. */
  function ParseInt(s: string): Option<int>
  {
    if |s| >= 2 && s[0] == '-' && (forall i :: 1 <= i < |s| ==> IsDigit(s[i])) then
      var magnitude: int := NumeralValue(s[1..]);
      Some(-magnitude)
    else if |s| >= 1 && forall i :: 0 <= i < |s| ==> IsDigit(s[i]) then
      Some(NumeralValue(s))
    else
      None
  }

  /** The port is written so that it reads back unchanged. */
  lemma IntToStringRoundTrip(i: int)
    ensures ParseInt(IntToString(i)) == Some(i)
  {
    var s := IntToString(i);
    if i < 0 {
      var digits := NatToString(-i);
      NatToStringRoundTrip(-i);
      assert s == "-" + digits;
      assert s[1..] == digits;
      assert forall j :: 1 <= j < |s| ==> s[j] == digits[j - 1];
    } else {
      assert s[0] != '-';
      NatToStringRoundTrip(i);
    }
  }

  /** The endpoint for `backend` in `main`, or the KeyError of the dictionary lookup. */
  function ApiUrl(backend: string, host: string, port: int, tokenizer: string): (r: Result<string, PyError>)
    ensures r.Failure? <==> backend !in Backends
    ensures r.Failure? ==> r.error == KeyError(backend)
    ensures r.Success? ==>
      var origin := "http://" + host + ":" + IntToString(port);
      && origin <= r.value
      && r.value[|origin|..] == if backend == "triton" then "/v2/models/" + ModelName(tokenizer) + "/generate" else "/generate"
  {
    var origin := "http://" + host + ":" + IntToString(port);
    if backend == "vllm" || backend == "tgi" then Success(origin + "/generate")
    else if backend == "triton" then Success(origin + "/v2/models/" + ModelName(tokenizer) + "/generate")
    else Failure(KeyError(backend))
  }

  /** The URL table and the payload builder accept exactly the same backends. */
  lemma UrlAndPayloadAgree(backend: string, host: string, port: int, tokenizer: string,
                           prompt: string, outputLen: int, bestOf: int)
    ensures ApiUrl(backend, host, port, tokenizer).Success? <==> MakePayload(backend, prompt, outputLen, bestOf).Success?
  {
  }
}
