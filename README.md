# Benchmark client for a text-generation server, in Dafny

This project models the sequential logic of `benchmark_serving.py`, a client that measures
the serving throughput of a text-generation HTTP server (vLLM, Text Generation Inference or
Triton). The model covers four parts of it:

- **Request preparation** (`sample_requests`). Conversations with fewer than two turns are
  dropped. The first two turns of each remaining one are tokenized. A pair is pruned when
  its prompt or its completion has fewer than 4 tokens, when the prompt has more than 1024
  tokens, or when the two together have more than 2048. A sample is then drawn.
- **Payload and endpoint selection.** vLLM and Triton take a flat JSON payload. TGI takes a
  payload with a nested `parameters` object. Any other backend name is an error. The Triton
  URL embeds the tokenizer name with every `-` replaced by `_`.
- **Recording a result** (`send_request`). The request is re-posted until a response has no
  `"error"` key. Then one latency tuple is appended to `REQUEST_LATENCY` and one
  `{prompt, added}` record to `OUTPUTS`. `added` is the text after the first `len(prompt)`
  characters; when the text is a list, its first element is used.
- **The request stream and the driver** (`get_request`, `benchmark`), run one request after
  another.

Modules:

- `Common`: option and result types, and the Python exceptions the modelled code raises.
- `Seqs`: order-preserving filtering. `KeptIndices` is an independent description of which
  positions a filter keeps.
- `Dataset`: request preparation.
- `Backend`: payloads, the model name and the URL table.
- `Recording`: text extraction, the retry loop, the `ResultStore` class holding the two
  result lists, `get_request` and `benchmark`.

External inputs are parameters of the model:

- The tokenizer is a function from text to token ids.
- The random generator's choice of sample positions is a sequence `picks`.
- The server's successive answers to one request are a sequence of decoded responses.
- The measured latency is a number.

Three behaviours of the code that the model keeps:

- `send_request` retries nothing but a response that carries an `"error"` key.
- In `send_request` the latency tuple is appended (benchmark_serving.py:149) before the
  generated text is extracted (benchmark_serving.py:151-154). A good response without `"text"`, or with an empty list as its text, therefore
  leaves a latency entry without an output record, and then raises.
- A zero or negative request rate is accepted at first. `get_request` yields the
  first request and only then raises: `ZeroDivisionError` for zero, numpy's `ValueError` for a
  negative scale. The task created for the first request never gets to run before that
  error, so nothing is recorded.

## Model

| member | source | states |
|---|---|---|
| `Seqs.Filter` | tests/functional/L1_vllm_integration/benchmark_serving.py:48 | the filtered list is no longer than the input, and each of its elements is in the input and satisfies the condition |
| `Seqs.KeptIndices` | tests/functional/L1_vllm_integration/benchmark_serving.py:63-74 | the kept positions are in range and strictly increasing, and a position is listed exactly when its element passes the condition |
| `Seqs.FilterAtKeptIndices` | tests/functional/L1_vllm_integration/benchmark_serving.py:63-74 | the k-th element of a filtered list is the input element at the k-th kept position, so the result is an order-preserving subsequence holding each kept element exactly once |
| `Dataset.Conversations` | tests/functional/L1_vllm_integration/benchmark_serving.py:47-50 | exactly the records with at least two turns are kept, in order, each as (turn 0 value, turn 1 value) |
| `Dataset.TokenizeAll` | tests/functional/L1_vllm_integration/benchmark_serving.py:52-60 | the tokenized dataset has one entry per pair; entry i holds prompt i, the token ids of prompt i and the token count of completion i |
| `Dataset.Pruned` | tests/functional/L1_vllm_integration/benchmark_serving.py:62-74 | every kept request has both lengths at least 4, a prompt of at most 1024 tokens and a total of at most 2048; the result is the order-preserving subsequence of exactly the entries within those bounds |
| `Dataset.PruneBadLengths` | tests/functional/L1_vllm_integration/benchmark_serving.py:62-74 | the pruning loop with its two `continue` guards computes exactly `Pruned` |
| `Dataset.Sample` | tests/functional/L1_vllm_integration/benchmark_serving.py:76-77 | `random.sample` raises ValueError exactly when the count is negative or exceeds the population; otherwise it returns that many requests, each drawn from the population at the generator's positions |
| `Dataset.SampleRequests` | tests/functional/L1_vllm_integration/benchmark_serving.py:39-78 | the result is an error, `random.sample`'s ValueError, exactly when the count is out of range; otherwise it holds that many requests, each one a prepared request within the length bounds |
| `Backend.MakePayload` | tests/functional/L1_vllm_integration/benchmark_serving.py:109-131 | an unknown backend raises ValueError; otherwise the payload carries the prompt, best_of and the output length as its token budget; vllm and triton get the flat shape with n=1, temperature 0, top_p 1, ignore_eos and no streaming; tgi gets the nested shape with do_sample |
| `Backend.ModelName` | tests/functional/L1_vllm_integration/benchmark_serving.py:178 | the model name has the tokenizer's length, has `_` where the tokenizer has `-` and is otherwise equal, and contains no `-` |
| `Backend.ModelNameIdempotent` | tests/functional/L1_vllm_integration/benchmark_serving.py:178 | replacing `-` a second time changes nothing |
| `Backend.NatToString` | tests/functional/L1_vllm_integration/benchmark_serving.py:180-183 | the port numeral is non-empty, all digits, and has no leading zero |
| `Backend.NatToStringRoundTrip` | tests/functional/L1_vllm_integration/benchmark_serving.py:180-183 | a numeral reads back as the number it was written from |
| `Backend.IntToStringRoundTrip` | tests/functional/L1_vllm_integration/benchmark_serving.py:180-183 | the port, negative or not, is formatted so that it reads back unchanged |
| `Backend.ApiUrl` | tests/functional/L1_vllm_integration/benchmark_serving.py:180-184 | an unknown backend raises KeyError; otherwise the URL is `http://host:port` followed by `/generate`, or for triton by `/v2/models/<model name>/generate` |
| `Backend.UrlAndPayloadAgree` | tests/functional/L1_vllm_integration/benchmark_serving.py:180-184 | the URL table and the payload builder accept exactly the same backend names |
| `Recording.SliceFrom` | tests/functional/L1_vllm_integration/benchmark_serving.py:152-154 | `s[n:]` has length max(0, len(s) - n) and is a suffix of `s` |
| `Recording.Extract` | tests/functional/L1_vllm_integration/benchmark_serving.py:151-154 | an empty candidate list raises IndexError; otherwise `added` is the tail of the (first) text after len(prompt) characters: prompt + added is the text when the text starts with the prompt, and added is empty when the text is no longer than the prompt |
| `Recording.AddedText` | tests/functional/L1_vllm_integration/benchmark_serving.py:151-154 | extraction fails exactly when `"text"` is missing or is an empty list; a missing `"text"` raises KeyError('text'), and a present one gives the extraction of that text |
| `Recording.FirstSuccess` | tests/functional/L1_vllm_integration/benchmark_serving.py:135-145 | the retry loop stops at the first response without `"error"`; there is none exactly when every response is an error |
| `Recording.FirstSuccessAfterErrors` | tests/functional/L1_vllm_integration/benchmark_serving.py:135-145 | error responses in front shift the chosen response by their number and change nothing else |
| `Recording.ErrorsAreSkipped` | tests/functional/L1_vllm_integration/benchmark_serving.py:135-155 | the text recorded after any number of error responses is the one recorded without them |
| `Recording.Completion` | tests/functional/L1_vllm_integration/benchmark_serving.py:135-155 | nothing is recorded when every response is an error |
| `Recording.CompletionAtFirstAnswer` | tests/functional/L1_vllm_integration/benchmark_serving.py:135-155 | when response k is the first without an `"error"` key, a text is recorded exactly when extraction from response k succeeds, and it is that extracted text |
| `Recording.ResultStore.constructor` | tests/functional/L1_vllm_integration/benchmark_serving.py:33-36 | both result lists start empty |
| `Recording.ResultStore.SendRequest` | tests/functional/L1_vllm_integration/benchmark_serving.py:98-155 | it returns success exactly when the backend is known and the text of the first good response is extracted, and then appends one latency tuple and one `{prompt, added}` record with the original prompt; an unknown backend raises ValueError and appends nothing; when every response is an error it is still retrying and appends nothing; when extraction raises, the latency tuple is appended and the error is returned; no earlier entry changes |
| `Recording.GetRequest` | tests/functional/L1_vllm_integration/benchmark_serving.py:81-95 | with an unbounded or positive rate every request is emitted in its original order with none dropped; a zero or negative rate raises after emitting the first |
| `Recording.AllCompleteMeans` | tests/functional/L1_vllm_integration/benchmark_serving.py:165-170 | the recursive "the first n requests all complete" holds exactly when each of those requests has a known backend and its first response without `"error"` yields an extracted text |
| `Recording.ObservationsAt` | tests/functional/L1_vllm_integration/benchmark_serving.py:147-149 | entry i of the latency tuples recorded for the first n requests is request i's (prompt length, output length, latency) |
| `Recording.OutputsAt` | tests/functional/L1_vllm_integration/benchmark_serving.py:151-155 | entry i of the output records for the first n completing requests is request i's prompt with the text recorded for its responses |
| `Recording.SendEach` | tests/functional/L1_vllm_integration/benchmark_serving.py:165-170 | the dispatch loop reports success exactly when every request completes; the requests before the stopping point all completed, and the output list grows by exactly their records in request order; at the request it stops at, it returns that request's ValueError, "still retrying" or extraction error, and the latency list grows by the completed requests' tuples plus that request's tuple exactly when it reached a response without `"error"` |
| `Recording.Benchmark` | tests/functional/L1_vllm_integration/benchmark_serving.py:158-170 | with a non-empty input and a zero or negative rate, it raises ZeroDivisionError or ValueError and records nothing; otherwise it behaves as the dispatch loop: success exactly when every request completes, with one entry per request in request order, and when a request does not complete the stopping outcome and records are as for `SendEach` |

## Left out

- Network I/O is not modelled: the HTTP session, the POST, chunked reading, UTF-8 decoding
  and JSON parsing. A response is given already decoded as a flag for `"error"` and an
  optional `"text"`, which is a string or a list of strings. Bodies of other JSON shapes,
  non-string list elements and the exceptions they cause are not modelled.
- The HTTP client's own exceptions and the three-hour timeout are not modelled. In the
  source such an exception is not caught by `send_request` and propagates to the caller.
- Dataset records are given decoded, each as a list of turns with a string `"value"`. A
  record without `"conversations"` or a turn without `"value"` (KeyError), a
  `"conversations"` that is not a list (TypeError), and other JSON shapes are not modelled.
- Concurrency is not modelled: `asyncio` tasks, `gather` and `sleep`.
- `Benchmark` and `SendEach` run the requests one after another in emission order and stop at the first
  request that does not complete. In the source, the requests run concurrently, results
  accumulate in completion order, and an exception reaches the caller while other tasks are
  still pending.
- Timing is not modelled: `time.perf_counter`, the exponential inter-arrival intervals (only
  their error cases are kept) and the latency value, which is a parameter.
- The throughput and mean-latency statistics (floating point over wall-clock time) are not
  modelled.
- `GetRequest`: a rate of negative infinity or NaN cannot be written in the model's `Rate`
  type.
- `SampleRequests` does not say which requests are drawn; the positions come from the
  random generator as the parameter `picks`.
- The tokenizer library, `get_tokenizer` and `trust_remote_code` are not modelled. The
  tokenizer is a parameter, and the batch call is taken to tokenize each text on its own.
- Reading the dataset file, writing `outputs-<backend>.jsonl`, command-line parsing and the
  `print` calls are not modelled.
- Strings are sequences of Unicode scalar values, matching what Python's `len` counts for
  them. A Python string holding a lone surrogate (which `json.loads` produces from an escape
  such as `"\udc80"`) cannot be represented.
