# Routing function model

This project is a Dafny model of the request-routing Lambda function of the
multi-application AI gateway (`cloudformation/lambda-routing-function/index.py`).
The function takes a batch of queued records. Each record holds a JSON body
naming an application, a request dict and a session. For each record the
function:

1. checks the size of the body and parses it;
2. reads the fields, with their defaults;
3. validates the application name, the input text and the session id;
4. looks the request up in a response cache keyed by a SHA-256 digest;
5. on a miss, routes the application to an inference agent, invokes the agent,
   assembles the streamed answer, and caches a successful answer.

It returns one result per record, in order.

## Modules

- `Utf8` (`utf8.dfy`): strict UTF-8 encoding and decoding. Encoding serves
  `str.encode('utf-8')` and the byte-size limits. Decoding serves
  `bytes.decode('utf-8')`, which rejects overlong forms, surrogates and code
  points above U+10FFFF. Both round trips are proved.
- `PyStr` (`pystr.dfy`): `str.split(',')`, `str.strip()` with Python's
  whitespace set, and the `[x for x in xs if x]` filter.
- `Json` (`json.dfy`): the values `json.loads` yields, Python truthiness and
  `or`, and `dict.get`. It also defines the canonical, order-free form that
  `json.dumps(..., sort_keys=True)` serialises.
- `Prims` (`prims.dfy`): the library calls whose internals are not modelled.
  These are `str.isalnum`, `json.loads`, `json.dumps(sort_keys=True)` and
  `sha256().hexdigest()`. They are passed in as function values, so every
  result holds whatever they compute.
- `Validation` (`validation.dfy`): `validate_input`.
- `CacheKey` (`cachekey.dfy`): `get_cache_key`.
- `Routing` (`routing.dfy`): `route_request` and `get_default_routing_config`.
- `Invoke` (`invoke.dfy`): the agent-id guard, stream assembly and the result
  of `invoke_bedrock_agent`. The backend is a function from the call's
  position and its arguments to a reply: it either raises or returns a
  stream of events.
- `Outcomes` (`outcome.dfy`): the per-record result dicts.
- `Handler` (`handler.dfy`): the per-record pipeline and the batch loop.
  - Pure functions specify the loop: `Intake`, `Serve`, `Step`, `Run` and
    `Handled`.
  - `World` is the state they thread through the loop: the cache map, the
    keys looked up and the backend calls made.
  - The class `RoutingFunction` holds the cache as a map field. It runs the
    loop with `get_from_cache`, `put_to_cache` and `invoke_bedrock_agent` as
    methods, and each method is proved to follow the functions.

Where the code differs from what a reader might expect of such a gateway,
the model follows the code:
- `validate_input` checks the input text before the session id.
- Routing falls back to the default agent when an application has no agent of
  its own.
- The session id is not part of the cache key, so cached responses are shared
  across sessions (`CachedAcrossSessions`).
- A batch of more than ten records is truncated to its first ten.
- A chunk that does not decode is skipped rather than failing the call, so a
  character split over two chunks is lost (`SplitCharacterIsDropped`).
- There is no retry, no timeout and no whitespace-insensitive emptiness check.
- The 256 KiB limit applies to the raw record body, before parsing.

## Model

| member | source | states |
|---|---|---|
| Utf8.EncodeAppend | cloudformation/lambda-routing-function/index.py:89 | encoding a concatenation is the concatenation of the encodings |
| Utf8.ByteLenBounds | cloudformation/lambda-routing-function/index.py:241 | a string of n code points encodes to between n and 4n bytes |
| Utf8.DecodeEncode | cloudformation/lambda-routing-function/index.py:177 | decoding the UTF-8 encoding of any string gives that string back |
| Utf8.EncodeDecode | cloudformation/lambda-routing-function/index.py:177 | every byte string that decodes is exactly the encoding of its decoding |
| PyStr.Split | cloudformation/lambda-routing-function/index.py:64-65 | `split(',')` never yields an empty list and no piece holds the separator |
| PyStr.JoinSplit | cloudformation/lambda-routing-function/index.py:70 | joining the pieces of a split with the separator rebuilds the string |
| PyStr.StripSlice | cloudformation/lambda-routing-function/index.py:73-74 | `strip()` returns a contiguous slice; only whitespace is cut on either side, and the slice neither begins nor ends with whitespace |
| PyStr.StripIdempotent | cloudformation/lambda-routing-function/index.py:73-74 | stripping twice is stripping once |
| PyStr.NonEmpty | cloudformation/lambda-routing-function/index.py:80-81 | the filtered list holds exactly the non-empty elements of the input, and is no longer |
| PyStr.NonEmptyAppend | cloudformation/lambda-routing-function/index.py:80-81 | the filter works element by element, keeping non-empty strings in order, duplicates included, and dropping empty ones |
| Json.Or | cloudformation/lambda-routing-function/index.py:301 | `a or b` is `a` when `a` is truthy and `b` otherwise, so it is truthy iff either operand is |
| Json.GetOr | cloudformation/lambda-routing-function/index.py:294-298 | `d.get(k, default)` is the default for an absent key and otherwise a value stored under k |
| Json.GetOrDistinct | cloudformation/lambda-routing-function/index.py:294-298 | in a dict with distinct keys, `get` returns the value of the entry present |
| Json.CanonReorder | cloudformation/lambda-routing-function/index.py:88 | two dicts holding the same entries in different orders have the same canonical form |
| Json.IntAndFloatStayApart | cloudformation/lambda-routing-function/index.py:88 | an `int` and the equal `float` have different canonical forms, so they can be serialised differently |
| Validation.ValidateInput | cloudformation/lambda-routing-function/index.py:228-252 | valid iff app name, input text and session id all pass; each message is returned exactly when its check is the first to fail, fields in the order app name, input, session and, within a field, presence, then length, then characters |
| Validation.InputSizeByCodePoints | cloudformation/lambda-routing-function/index.py:241-242 | at most 25600 code points always fit 100 KiB; more than 102400 never do |
| Validation.IdentifierHasNoColon | cloudformation/lambda-routing-function/index.py:235 | a name that passes the character check holds no ':', when `isalnum` is faithful on ASCII |
| CacheKey.Key | cloudformation/lambda-routing-function/index.py:86-89 | the SHA-256 digest of `app:json`; its contract is stated by KeyIgnoresOrder and KeyTextInjective |
| CacheKey.KeyIgnoresOrder | cloudformation/lambda-routing-function/index.py:86-89 | the cache key does not depend on the insertion order of the request dict |
| CacheKey.KeyTextInjective | cloudformation/lambda-routing-function/index.py:88 | for colon-free app names, equal hashed texts mean the same app and the same serialised request |
| Routing.RouteRequest | cloudformation/lambda-routing-function/index.py:139-150 | the app's own agent when its rule names a non-empty one, else the default agent; the knowledge base is the rule's, or None without a rule |
| Routing.RouteIsOwnOrDefault | cloudformation/lambda-routing-function/index.py:144 | a route is the app's own agent or the default, never another app's; an app with its own agent never falls back |
| Routing.RulesFrom | cloudformation/lambda-routing-function/index.py:69-77 | the rule table the loop builds; its contract is stated by RulesFromKeys, RulesFromLast and RouteDefaultTable, and DefaultRoutingConfig proves the loop equal to it |
| Routing.RulesFromKeys | cloudformation/lambda-routing-function/index.py:69-77 | the default table has a rule for a name iff the name is non-empty and some listed app strips to it |
| Routing.RulesFromLast | cloudformation/lambda-routing-function/index.py:72-77 | an app's rule is built from the position of its last occurrence in APPLICATIONS |
| Routing.DefaultRoutingConfig | cloudformation/lambda-routing-function/index.py:62-84 | the default config: the filtered agent and knowledge-base lists, DEFAULT_AGENT or the first agent, and the rule table built by the loop |
| Routing.RouteDefaultTable | cloudformation/lambda-routing-function/index.py:72-77 | with the default table, an app at position i routes to `agents[i]` when that is non-empty, else to the default agent, with `knowledge_bases[i]` or '' |
| Invoke.Assembled | cloudformation/lambda-routing-function/index.py:171-182 | the assembled answer of a stream; its contract is stated by NoneStaysNone, AssembledKeepsAllBytes and SplitCharacterIsDropped, and AssembleCompletion proves the loop equal to it |
| Invoke.AssembleCompletion | cloudformation/lambda-routing-function/index.py:171-182 | the loop's result is the in-order concatenation of the decodable chunk texts, or None if the stream raised |
| Invoke.NoneStaysNone | cloudformation/lambda-routing-function/index.py:183-187 | once reading the stream has raised, later events do not matter |
| Invoke.AssembledKeepsAllBytes | cloudformation/lambda-routing-function/index.py:171-182 | when every chunk decodes and nothing raises, the answer's UTF-8 encoding is exactly all payloads concatenated |
| Invoke.SplitCharacterIsDropped | cloudformation/lambda-routing-function/index.py:176-180 | a character whose bytes are split over two chunks is lost, although the joined payloads decode to it |
| Invoke.CallOutcome | cloudformation/lambda-routing-function/index.py:164-187 | 200 with the assembled text iff the call returned a stream that assembles; otherwise 500 'Bedrock service error' with the error id |
| Handler.Intake | cloudformation/lambda-routing-function/index.py:276-312 | everything before the cache; its contract is stated by IntakeCases, AcceptedIsValid, InputTextPriority and NoInputTextIsUnreachable |
| Handler.IntakeCases | cloudformation/lambda-routing-function/index.py:276-312 | a body over 256 KiB gives 400 'Request body too large', an unparsable one 400 'Invalid JSON format', a non-dict 500; otherwise the defaulted fields are validated, and a failure gives 400 with the validator's message and the app name |
| Handler.AcceptedIsValid | cloudformation/lambda-routing-function/index.py:303-312 | an accepted request has an app name and session id of allowed characters and length, and a non-empty input of at most 100 KiB |
| Handler.InputTextPriority | cloudformation/lambda-routing-function/index.py:301 | the input text is `input` when truthy, else `query` when truthy, else `prompt` or '' |
| Handler.Serve | cloudformation/lambda-routing-function/index.py:323-358 | cache lookup, routing, invocation and cache write; its contract is stated by ServeEffects and the Step lemmas below |
| Handler.ServeEffects | cloudformation/lambda-routing-function/index.py:323-358 | serving a validated request looks its key up once, and changes the cache only by storing a fresh 200 answer under that key |
| Handler.LookupOnlyAfterValidation | cloudformation/lambda-routing-function/index.py:303-325 | a rejected record leaves the world untouched; an accepted one reads the cache once, under its own key |
| Handler.HitIsServedFromCache | cloudformation/lambda-routing-function/index.py:325-334 | a non-empty cached answer is returned as 200 with `cached` set, with no backend call and no cache change |
| Handler.EmptyEntryIsMiss | cloudformation/lambda-routing-function/index.py:327 | a stored empty answer is not reported as a cache hit: the record gets the same result and makes the same backend calls as with no entry |
| Handler.CallOnlyWhenRouted | cloudformation/lambda-routing-function/index.py:336-350 | a backend call happens only for a validated miss routed to an agent id that passes the guard, with that agent, session and input |
| Handler.UnroutableMakesNoCall | cloudformation/lambda-routing-function/index.py:340-347 | no agent gives 400 'No agent configured for app', an agent id that fails the guard gives 400 'Invalid agent_id'; neither calls the backend or writes the cache |
| Handler.CacheWrittenOnlyOnSuccess | cloudformation/lambda-routing-function/index.py:353-356 | the cache changes only on a fresh 200, and then only the request's key, set to the response body |
| Handler.StatusCodes | cloudformation/lambda-routing-function/index.py:254-368 | every result is 200 with text, 400 with an error and no id, or 500 with an error and the error id |
| Handler.NoInputTextIsUnreachable | cloudformation/lambda-routing-function/index.py:314-321 | the 'No input text provided' result is never produced |
| Handler.CachedAcrossSessions | cloudformation/lambda-routing-function/index.py:323-356 | when neither cache call fails and the entry has not expired: after a request is answered and cached, any session's request with the same app and the same request dict, in any insertion order, gets the same answer, marked cached, with no call |
| Handler.RepeatIsIdempotent | cloudformation/lambda-routing-function/index.py:323-356 | when neither cache call fails and the entry has not expired: a record delivered twice gets the same answer the second time, marked cached |
| Handler.AppsDoNotShareKeyText | cloudformation/lambda-routing-function/index.py:324 | validated requests of different apps hash different texts |
| Handler.RunInOrder | cloudformation/lambda-routing-function/index.py:272-358 | one result per record, in order; each is what its record gives in the world left by the records before it |
| Handler.RunOnlyAdds | cloudformation/lambda-routing-function/index.py:272-358 | the loop never removes a cache entry, only appends lookups and calls, and makes at most one call per record |
| Handler.HandledShape | cloudformation/lambda-routing-function/index.py:264-274 | no records gives 400 with nothing touched; otherwise the first ten records are processed in order, `processed_count` is the number of results, and records past the tenth are ignored |
| Handler.RoutingFunction.GetFromCache | cloudformation/lambda-routing-function/index.py:91-110 | returns the stored answer, or None on a miss or without a table; records the lookup |
| Handler.RoutingFunction.PutToCache | cloudformation/lambda-routing-function/index.py:112-137 | overwrites the entry for the key when a table is configured, and does nothing otherwise |
| Handler.RoutingFunction.InvokeAgent | cloudformation/lambda-routing-function/index.py:152-187 | applies the guard, then makes one backend call and assembles its stream, as InvokeStep specifies |
| Handler.RoutingFunction.ProcessRecord | cloudformation/lambda-routing-function/index.py:273-368 | result and new state are those of Step on the old state |
| Handler.RoutingFunction.Handle | cloudformation/lambda-routing-function/index.py:254-374 | reply and new state are those of Handled on the old state |

## Left out

- `initialize_clients` and the AWS clients are not modelled. The
  'Bedrock client not initialized' 500 is left out, and so is the choice
  between DAX and DynamoDB, since both read and write the same entries.
- `load_routing_config` is not modelled. It parses the `ROUTING_CONFIG`
  environment variable (default `'{}'`) as JSON when its text, stripped of
  surrounding whitespace, starts with `{`, and as YAML otherwise. It falls
  back to `get_default_routing_config` only when parsing raises. The loaded
  config is an input to the handler. A config whose fields have the wrong
  types is not modelled.
- `invoke_bedrock_model` is not modelled, because the handler never calls it.
- The TTL is left out: entries never expire. A missing table is the only
  reason a lookup misses besides an absent key. Cache read and write errors
  are caught by the code and are not modelled.
- A `CACHE_TTL` that is not an integer is not modelled. It would make every
  fresh 200 answer a 500.
- The cached text is not passed through `json.dumps`/`json.loads`. That round
  trip is the identity on strings.
- `time.time()` is not modelled. The default session id and the error id are
  inputs, fixed for a batch.
- Numbers are `int` or `real` (a Python `float`). `-0.0` and `0.0` are the
  same `real`, so the model gives them one cache key where `json.dumps`
  writes `-0.0` and `0.0` and the code hashes different texts. NaN and
  infinities are not modelled.
- Strings hold Unicode scalar values. A lone surrogate, which would make
  `encode` raise, is not modelled.
- Records that are not dicts and bodies that are not strings are not
  modelled. The only per-record 500 path modelled is a parsed body that is
  not a JSON object.
- The outer `except` of `handler` is not modelled.
- Logging is not modelled.
- Handler.RoutingFunction.constructor: starts with a given cache and empty
  logs. It has no counterpart in the code.
- Validation.IdentifierHasNoColon, Handler.AppsDoNotShareKeyText: are proved
  only when `str.isalnum` agrees with ASCII letters and digits on ASCII
  characters, because `isalnum` is an abstract parameter.
