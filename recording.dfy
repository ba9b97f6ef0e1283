/** Sending one request and recording its result (`send_request`), the request stream
    (`get_request`) and the driver that sends every request (`benchmark`), all run one
    request after another. The server's successive answers to one request are given as a
    sequence of responses; the latency is given as a number. */
module Recording {
  import opened Common
  import opened Dataset
  import opened Backend
  import opened Seqs

  /** The "text" field of a response: one string, or a list of candidate strings. */
  datatype Text = Single(s: string) | Candidates(items: seq<string>)

  /** A decoded response body: whether it has an "error" key, and its "text" field if any. */
  datatype Response = Response(hasError: bool, text: Option<Text>)

  /** An entry of REQUEST_LATENCY: (prompt len, output len, latency). */
  datatype Observation = Observation(promptLen: int, outputLen: int, latency: real)

  /** An entry of OUTPUTS: {"prompt": ..., "added": ...}. */
  datatype OutputRecord = OutputRecord(prompt: string, added: string)

  /** How a call of `send_request` ends: it records a result, it is still retrying when
      the given responses run out, or it raises. */
  datatype Outcome = Sent | Retrying | Raised(error: PyError)

  /** The request rate: `inf`, or a number of requests per second. */
  datatype Rate = Unbounded | PerSecond(rate: real)

  /** Python's `s[start:]` for a non-negative start: empty once `start` passes the end. */
  function SliceFrom(s: string, start: nat): (r: string)
    ensures |r| == if start <= |s| then |s| - start else 0
    ensures r == s[|s| - |r|..]
  {
    if start <= |s| then s[start..] else []
  }

  /** The text the server added after the prompt in `send_request`: the first candidate when
      the text is a list, with the first len(prompt) characters removed. */
  function Extract(text: Text, prompt: string): (r: Result<string, PyError>)
    ensures r.Failure? <==> text == Candidates([])
    ensures r.Failure? ==> r.error == IndexError
    ensures r.Success? ==>
      var generated := if text.Single? then text.s else text.items[0];
      && (prompt <= generated ==> prompt + r.value == generated)
      && (|generated| <= |prompt| ==> r.value == [])
      && |r.value| == (if |prompt| <= |generated| then |generated| - |prompt| else 0)
      && r.value == generated[|generated| - |r.value|..]
  {
    match text
    case Single(s) => Success(SliceFrom(s, |prompt|))
    case Candidates(items) =>
      if items == [] then Failure(IndexError) else Success(SliceFrom(items[0], |prompt|))
  }

  /** `output["text"]` followed by the extraction: a KeyError when there is no "text". */
  function AddedText(response: Response, prompt: string): (r: Result<string, PyError>)
    ensures r.Failure? <==> response.text.None? || response.text.value == Candidates([])
    ensures response.text.None? ==> r == Failure(KeyError("text"))
    ensures response.text.Some? ==> r == Extract(response.text.value, prompt)
  {
    match response.text
    case None => Failure(KeyError("text"))
    case Some(text) => Extract(text, prompt)
  }

  /** The position of the first response without an "error" key, if there is one. */
  function FirstSuccess(responses: seq<Response>): (k: Option<nat>)
    ensures k.Some? ==> k.value < |responses| && !responses[k.value].hasError
    ensures k.Some? ==> forall j :: 0 <= j < k.value ==> responses[j].hasError
    ensures k.None? <==> forall j :: 0 <= j < |responses| ==> responses[j].hasError
  {
    if responses == [] then None
    else if !responses[0].hasError then Some(0)
    else match FirstSuccess(responses[1..])
      case None => None
      case Some(k) => Some(k + 1)
  }

  /** The text `send_request` records for `prompt` when the server answers with
      `responses`: the added text of the first response without an "error" key, if that
      response yields one. */
  function Completion(prompt: string, responses: seq<Response>): (added: Option<string>)
    ensures (forall j :: 0 <= j < |responses| ==> responses[j].hasError) ==> added.None?
  {
    match FirstSuccess(responses)
    case None => None
    case Some(k) =>
      match AddedText(responses[k], prompt)
      case Success(text) => Some(text)
      case Failure(_) => None
  }

  /** When response `k` is the first without an "error" key, the recorded text is the one
      extracted from it, and nothing is recorded when that extraction raises. */
  lemma CompletionAtFirstAnswer(prompt: string, responses: seq<Response>, k: nat)
    requires k < |responses| && !responses[k].hasError
    requires forall j :: 0 <= j < k ==> responses[j].hasError
    ensures Completion(prompt, responses).Some? <==> AddedText(responses[k], prompt).Success?
    ensures Completion(prompt, responses).Some? ==>
      Completion(prompt, responses).value == AddedText(responses[k], prompt).value
  {
    assert FirstSuccess(responses) == Some(k);
  }

  /** Error responses before the first good one change nothing: the retry loop picks the
      same response, shifted by the number of errors. */
  lemma {:induction false} FirstSuccessAfterErrors(errors: seq<Response>, rest: seq<Response>)
    requires forall j :: 0 <= j < |errors| ==> errors[j].hasError
    ensures FirstSuccess(rest).None? ==> FirstSuccess(errors + rest).None?
    ensures FirstSuccess(rest).Some? ==> FirstSuccess(errors + rest) == Some(|errors| + FirstSuccess(rest).value)
    decreases |errors|
  {
    if errors == [] {
      assert errors + rest == rest;
    } else {
      var tail := errors[1..];
      FirstSuccessAfterErrors(tail, rest);
      assert (errors + rest)[0].hasError;
      assert (errors + rest)[1..] == tail + rest;
    }
  }

  /** Retrying after error responses records the same text as if the first request had
      succeeded. */
  lemma ErrorsAreSkipped(prompt: string, errors: seq<Response>, rest: seq<Response>)
    requires forall j :: 0 <= j < |errors| ==> errors[j].hasError
    ensures Completion(prompt, errors + rest) == Completion(prompt, rest)
  {
    FirstSuccessAfterErrors(errors, rest);
    if FirstSuccess(rest).Some? {
      assert (errors + rest)[|errors| + FirstSuccess(rest).value] == rest[FirstSuccess(rest).value];
    }
  }

  /** `send_request` ends by recording a complete result. */
  predicate Completes(backend: string, prompt: string, responses: seq<Response>)
  {
    backend in Backends && Completion(prompt, responses).Some?
  }

  /** `send_request` reaches a response without an "error" key, and so appends its
      observation. */
  predicate Answered(backend: string, responses: seq<Response>)
  {
    backend in Backends && FirstSuccess(responses).Some?
  }

  /** How `send_request` ends when it does not record a result: the ValueError of an
      unknown backend, still retrying, or the error of the extraction. */
  function Stopped(backend: string, prompt: string, responses: seq<Response>): (outcome: Outcome)
    requires !Completes(backend, prompt, responses)
    ensures outcome != Sent
  {
    if backend !in Backends then Raised(ValueError("Unknown backend: " + backend))
    else match FirstSuccess(responses)
      case None => Retrying
      case Some(k) => Raised(AddedText(responses[k], prompt).error)
  }

  /** A request rate that `get_request` accepts: it draws intervals without raising. */
  predicate Steady(rate: Rate)
  {
    rate.Unbounded? || rate.rate > 0.0
  }

  /** Request i exists and completes. */
  function CompletesAt(backend: string, inputs: seq<Request>, responses: seq<seq<Response>>): nat -> bool
  {
    (i: nat) => i < |inputs| && i < |responses| && Completes(backend, inputs[i].prompt, responses[i])
  }

  /** The first `n` requests all complete. */
  predicate AllComplete(backend: string, inputs: seq<Request>, responses: seq<seq<Response>>, n: nat)
  {
    HoldsBelow(CompletesAt(backend, inputs, responses), n)
  }

  lemma AllCompleteMeans(backend: string, inputs: seq<Request>, responses: seq<seq<Response>>, n: nat)
    requires n <= |inputs| && n <= |responses|
    ensures AllComplete(backend, inputs, responses, n) <==>
      forall i :: 0 <= i < n ==> Completes(backend, inputs[i].prompt, responses[i])
  {
    var p := CompletesAt(backend, inputs, responses);
    HoldsBelowMeans(p, n);
    assert forall i :: 0 <= i < n ==> p(i) == Completes(backend, inputs[i].prompt, responses[i]);
  }

  /** The observations that sending the first `n` requests appends, in order. */
  function Observations(inputs: seq<Request>, latencies: seq<real>, n: nat): (observations: seq<Observation>)
    requires n <= |inputs| && n <= |latencies|
    ensures |observations| == n
  {
    if n == 0 then []
    else Observations(inputs, latencies, n - 1) + [Observation(inputs[n - 1].promptLen, inputs[n - 1].outputLen, latencies[n - 1])]
  }

  /** The output records that sending the first `n` requests, each completing, appends,
      in order. */
  function Outputs(backend: string, inputs: seq<Request>, responses: seq<seq<Response>>, n: nat): (records: seq<OutputRecord>)
    requires n <= |inputs| && n <= |responses|
    requires AllComplete(backend, inputs, responses, n)
    ensures |records| == n
  {
    if n == 0 then []
    else
      assert CompletesAt(backend, inputs, responses)(n - 1);
      Outputs(backend, inputs, responses, n - 1) + [OutputRecord(inputs[n - 1].prompt, Completion(inputs[n - 1].prompt, responses[n - 1]).value)]
  }

  /** Entry i of the observations is request i's. */
  lemma {:induction false} ObservationsAt(inputs: seq<Request>, latencies: seq<real>, n: nat, i: nat)
    requires n <= |inputs| && n <= |latencies| && i < n
    ensures Observations(inputs, latencies, n)[i] == Observation(inputs[i].promptLen, inputs[i].outputLen, latencies[i])
  {
    if i < n - 1 {
      ObservationsAt(inputs, latencies, n - 1, i);
    }
  }

  /** Entry i of the output records is request i's prompt and recorded text. */
  lemma {:induction false} OutputsAt(backend: string, inputs: seq<Request>, responses: seq<seq<Response>>, n: nat, i: nat)
    requires n <= |inputs| && n <= |responses| && i < n
    requires AllComplete(backend, inputs, responses, n)
    ensures Completes(backend, inputs[i].prompt, responses[i])
    ensures Outputs(backend, inputs, responses, n)[i] ==
      OutputRecord(inputs[i].prompt, Completion(inputs[i].prompt, responses[i]).value)
  {
    assert CompletesAt(backend, inputs, responses)(n - 1);
    if i < n - 1 {
      OutputsAt(backend, inputs, responses, n - 1, i);
    }
  }

  /** One more completing request extends all three descriptions by its own entry. */
  lemma CompletedStep(backend: string, inputs: seq<Request>, responses: seq<seq<Response>>, latencies: seq<real>, n: nat)
    requires n < |inputs| && n < |responses| && n < |latencies|
    requires AllComplete(backend, inputs, responses, n)
    requires Completes(backend, inputs[n].prompt, responses[n])
    ensures AllComplete(backend, inputs, responses, n + 1)
    ensures Outputs(backend, inputs, responses, n + 1) ==
      Outputs(backend, inputs, responses, n) + [OutputRecord(inputs[n].prompt, Completion(inputs[n].prompt, responses[n]).value)]
    ensures Observations(inputs, latencies, n + 1) ==
      Observations(inputs, latencies, n) + [Observation(inputs[n].promptLen, inputs[n].outputLen, latencies[n])]
  {
    assert CompletesAt(backend, inputs, responses)(n);
  }

  /** The module-level result lists REQUEST_LATENCY and OUTPUTS. */
  class ResultStore {
    var requestLatency: seq<Observation>
    var outputs: seq<OutputRecord>

    constructor ()
      ensures requestLatency == [] && outputs == []
    {
      requestLatency := [];
      outputs := [];
    }

    /** `send_request`: build the payload, post it until a response has no "error" key,
        then append one observation and one output record. An error response appends
        nothing; a missing "text" or an empty candidate list raises after the observation
        is appended. */
    method SendRequest(backend: string, prompt: string, promptLen: int, outputLen: int, bestOf: int,
                       responses: seq<Response>, latency: real) returns (outcome: Outcome)
      modifies this
      ensures outcome.Sent? <==> Completes(backend, prompt, responses)
      ensures outcome.Sent? ==>
        && requestLatency == old(requestLatency) + [Observation(promptLen, outputLen, latency)]
        && outputs == old(outputs) + [OutputRecord(prompt, Completion(prompt, responses).value)]
      ensures !outcome.Sent? ==> outcome == Stopped(backend, prompt, responses)
      ensures !outcome.Sent? ==>
        && outputs == old(outputs)
        && requestLatency == old(requestLatency) + (if Answered(backend, responses) then [Observation(promptLen, outputLen, latency)] else [])
      ensures backend !in Backends ==> outcome == Raised(ValueError("Unknown backend: " + backend))
      ensures backend in Backends && FirstSuccess(responses).None? ==> outcome == Retrying
      ensures backend !in Backends || FirstSuccess(responses).None? ==>
        requestLatency == old(requestLatency) && outputs == old(outputs)
      ensures backend in Backends && FirstSuccess(responses).Some? ==>
        var added := AddedText(responses[FirstSuccess(responses).value], prompt);
        && requestLatency == old(requestLatency) + [Observation(promptLen, outputLen, latency)]
        && outputs == old(outputs) + (if added.Success? then [OutputRecord(prompt, added.value)] else [])
        && (added.Failure? ==> outcome == Raised(added.error))
    {
      var payload := MakePayload(backend, prompt, outputLen, bestOf);
      if payload.Failure? {
        return Raised(payload.error);
      }
      var i := 0;
      while true
        invariant 0 <= i <= |responses|
        invariant forall j :: 0 <= j < i ==> responses[j].hasError
        decreases |responses| - i
      {
        if i == |responses| {
          return Retrying;
        }
        if !responses[i].hasError {
          break;
        }
        i := i + 1;
      }
      var output := responses[i];
      requestLatency := requestLatency + [Observation(promptLen, outputLen, latency)];
      if output.text.None? {
        return Raised(KeyError("text"));
      }
      var added := Extract(output.text.value, prompt);
      if added.Failure? {
        return Raised(added.error);
      }
      outputs := outputs + [OutputRecord(prompt, added.value)];
      return Sent;
    }
  }

  /** `get_request` run to exhaustion: the requests in their original order. After each
      request a finite rate draws an exponential interval with scale 1/rate, which raises
      for a zero rate (division by zero) and for a negative one (negative scale). */
  method GetRequest(inputs: seq<Request>, rate: Rate) returns (emitted: seq<Request>, raised: Option<PyError>)
    ensures raised.None? <==> |inputs| == 0 || rate.Unbounded? || rate.rate > 0.0
    ensures raised.None? ==> emitted == inputs
    ensures raised.Some? ==> |inputs| > 0 && emitted == inputs[..1]
    ensures raised.Some? ==> raised.value == if rate.rate == 0.0 then ZeroDivisionError else ValueError("scale < 0")
  {
    emitted, raised := [], None;
    for i := 0 to |inputs|
      invariant emitted == inputs[..i]
      invariant i > 0 ==> rate.Unbounded? || rate.rate > 0.0
    {
      emitted := emitted + [inputs[i]];
      if rate.Unbounded? {
        continue;
      }
      if rate.rate == 0.0 {
        raised := Some(ZeroDivisionError);
        return;
      }
      var scale := 1.0 / rate.rate;
      if scale < 0.0 {
        raised := Some(ValueError("scale < 0"));
        return;
      }
    }
    assert inputs[..|inputs|] == inputs;
  }

  /** Sends request `n` after the first `n` have completed and been recorded on top of
      `latency0` and `outputs0`: the records grow by request `n`'s entries when it
      completes; otherwise it stops the way `send_request` does. */
  method SendNext(store: ResultStore, backend: string, requests: seq<Request>, bestOf: int,
                  responses: seq<seq<Response>>, latencies: seq<real>, n: nat,
                  ghost latency0: seq<Observation>, ghost outputs0: seq<OutputRecord>) returns (sent: Outcome)
    requires n < |requests| && |responses| == |requests| && |latencies| == |requests|
    requires AllComplete(backend, requests, responses, n)
    requires store.requestLatency == latency0 + Observations(requests, latencies, n)
    requires store.outputs == outputs0 + Outputs(backend, requests, responses, n)
    modifies store
    ensures sent.Sent? <==> Completes(backend, requests[n].prompt, responses[n])
    ensures sent.Sent? ==>
      && AllComplete(backend, requests, responses, n + 1)
      && store.requestLatency == latency0 + Observations(requests, latencies, n + 1)
      && store.outputs == outputs0 + Outputs(backend, requests, responses, n + 1)
    ensures !sent.Sent? ==>
      && sent == Stopped(backend, requests[n].prompt, responses[n])
      && store.outputs == outputs0 + Outputs(backend, requests, responses, n)
      && store.requestLatency == latency0 + Observations(requests, latencies, n) +
        (if Answered(backend, responses[n])
         then [Observation(requests[n].promptLen, requests[n].outputLen, latencies[n])] else [])
  {
    var request := requests[n];
    sent := store.SendRequest(backend, request.prompt, request.promptLen, request.outputLen, bestOf,
                              responses[n], latencies[n]);
    if sent.Sent? {
      CompletedStep(backend, requests, responses, latencies, n);
      var observed := Observations(requests, latencies, n);
      var recorded := Outputs(backend, requests, responses, n);
      assert store.requestLatency == latency0 + observed + [Observation(request.promptLen, request.outputLen, latencies[n])];
      assert latency0 + observed + [Observation(request.promptLen, request.outputLen, latencies[n])] ==
        latency0 + (observed + [Observation(request.promptLen, request.outputLen, latencies[n])]);
      assert store.outputs == outputs0 + recorded + [OutputRecord(request.prompt, Completion(request.prompt, responses[n]).value)];
      assert outputs0 + recorded + [OutputRecord(request.prompt, Completion(request.prompt, responses[n]).value)] ==
        outputs0 + (recorded + [OutputRecord(request.prompt, Completion(request.prompt, responses[n]).value)]);
    }
  }

  /** The dispatch loop of `benchmark`: each request is sent in turn, `responses[i]` and
      `latencies[i]` being what request i meets, until one does not complete. */
  method SendEach(store: ResultStore, backend: string, requests: seq<Request>, bestOf: int,
                  responses: seq<seq<Response>>, latencies: seq<real>) returns (outcome: Outcome, done: nat)
    requires |responses| == |requests| && |latencies| == |requests|
    modifies store
    ensures done <= |requests|
    ensures outcome.Sent? <==> done == |requests|
    ensures AllComplete(backend, requests, responses, done)
    ensures done < |requests| ==>
      && !Completes(backend, requests[done].prompt, responses[done])
      && outcome == Stopped(backend, requests[done].prompt, responses[done])
    ensures store.outputs == old(store.outputs) + Outputs(backend, requests, responses, done)
    ensures store.requestLatency == old(store.requestLatency) + Observations(requests, latencies, done) +
      (if done < |requests| && Answered(backend, responses[done])
       then [Observation(requests[done].promptLen, requests[done].outputLen, latencies[done])] else [])
  {
    done := 0;
    while done < |requests|
      invariant done <= |requests|
      invariant AllComplete(backend, requests, responses, done)
      invariant store.requestLatency == old(store.requestLatency) + Observations(requests, latencies, done)
      invariant store.outputs == old(store.outputs) + Outputs(backend, requests, responses, done)
    {
      var sent := SendNext(store, backend, requests, bestOf, responses, latencies, done,
                           old(store.requestLatency), old(store.outputs));
      if !sent.Sent? {
        return sent, done;
      }
      done := done + 1;
    }
    outcome := Sent;
  }

  /** `benchmark`: the requests of `get_request`, sent one after another. It stops at the
      first request that does not complete. */
  method Benchmark(store: ResultStore, backend: string, inputs: seq<Request>, bestOf: int, rate: Rate,
                   responses: seq<seq<Response>>, latencies: seq<real>) returns (outcome: Outcome, done: nat)
    requires |responses| == |inputs| && |latencies| == |inputs|
    modifies store
    ensures done <= |inputs|
    ensures outcome.Sent? <==> done == |inputs| && (|inputs| == 0 || Steady(rate))
    ensures AllComplete(backend, inputs, responses, done)
    ensures |inputs| > 0 && !Steady(rate) ==>
      && done == 0
      && outcome == Raised(if rate.rate == 0.0 then ZeroDivisionError else ValueError("scale < 0"))
      && store.requestLatency == old(store.requestLatency)
      && store.outputs == old(store.outputs)
    ensures done < |inputs| && Steady(rate) ==>
      && !Completes(backend, inputs[done].prompt, responses[done])
      && outcome == Stopped(backend, inputs[done].prompt, responses[done])
    ensures store.outputs == old(store.outputs) + Outputs(backend, inputs, responses, done)
    ensures store.requestLatency == old(store.requestLatency) + Observations(inputs, latencies, done) +
      (if done < |inputs| && Steady(rate) && Answered(backend, responses[done])
       then [Observation(inputs[done].promptLen, inputs[done].outputLen, latencies[done])] else [])
  {
    var emitted, raised := GetRequest(inputs, rate);
    if raised.Some? {
      return Raised(raised.value), 0;
    }
    outcome, done := SendEach(store, backend, emitted, bestOf, responses, latencies);
  }

  /** A server that fails twice and then answers "hi there!" to the prompt "hi": one
      observation and one output record with the text after the prompt. */
  method RetryScenario()
  {
    var store := new ResultStore();
    var answer := Response(false, Some(Single("hi there!")));
    var failure := Response(true, None);
    var outcome := store.SendRequest("vllm", "hi", 2, 3, 1, [failure, failure, answer], 0.5);
    assert FirstSuccess([answer]) == Some(0);
    FirstSuccessAfterErrors([failure, failure], [answer]);
    assert [failure, failure] + [answer] == [failure, failure, answer];
    assert outcome == Sent;
    assert store.requestLatency == [Observation(2, 3, 0.5)];
    assert store.outputs == [OutputRecord("hi", " there!")];
  }

  /** A request whose every response is an error is still being retried: nothing is
      recorded and the loop stops there. A zero rate raises before anything is recorded. */
  method StopScenarios()
  {
    var request := Request("hi", 2, 3);
    var failure := Response(true, None);
    var store := new ResultStore();
    assert FirstSuccess([failure]) == None;
    var outcome, done := SendEach(store, "vllm", [request], 1, [[failure]], [0.5]);
    assert done == 0 && outcome == Retrying;
    assert store.requestLatency == [] && store.outputs == [];
    outcome, done := Benchmark(store, "vllm", [request], 1, PerSecond(0.0), [[failure]], [0.5]);
    assert done == 0 && outcome == Raised(ZeroDivisionError);
    assert store.requestLatency == [] && store.outputs == [];
  }
}
