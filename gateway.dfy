/** The request plumbing that both edge functions (analyze-decision-dna and
    simulate-decision) carry as identical copies: the credential list read from
    the environment, the random choice of an untried credential, the rotation
    loop over the upstream generative-language service, and the mapping of the
    loop's outcome to the HTTP response. */
module Gateway {
  import opened Wrappers
  import opened Decimal
  import opened JsonSpan

  // ---------------------------------------------------------------------------
  // Configuration: getApiKeys
  // ---------------------------------------------------------------------------

  /** GEMINI_API_KEY_1, GEMINI_API_KEY_2, GEMINI_API_KEY_3 and GEMINI_API_KEY, as
      `Deno.env.get` returns them (None for an unset variable). */
  datatype Env = Env(key1: Option<string>, key2: Option<string>, key3: Option<string>, fallback: Option<string>)

  /** JavaScript truthiness of an environment value: unset and "" are both falsy. */
  predicate IsSet(v: Option<string>) {
    v.Some? && v.value != ""
  }

  /** The set values of `vals`, in their order. */
  function SetValues(vals: seq<Option<string>>): (r: seq<string>)
    ensures |r| <= |vals|
    ensures forall k :: 0 <= k < |r| ==> r[k] != ""
    ensures r == [] <==> forall i :: 0 <= i < |vals| ==> !IsSet(vals[i])
  {
    if vals == [] then []
    else (if IsSet(vals[0]) then [vals[0].value] else []) + SetValues(vals[1..])
  }

  /** The contribution of one `if (key) keys.push(key)`. */
  function Keep(v: Option<string>): seq<string> {
    if IsSet(v) then [v.value] else []
  }

  lemma SetValuesOfThree(a: Option<string>, b: Option<string>, c: Option<string>)
    ensures SetValues([a, b, c]) == Keep(a) + Keep(b) + Keep(c)
    ensures SetValues([a]) == Keep(a)
  {
    assert [a, b, c][1..] == [b, c];
    assert [b, c][1..] == [c];
    assert [c][1..] == [];
    assert [a][1..] == [];
    assert SetValues([c]) == Keep(c);
    assert SetValues([b, c]) == Keep(b) + Keep(c);
  }

  predicate SomeNumberedKeySet(env: Env) {
    IsSet(env.key1) || IsSet(env.key2) || IsSet(env.key3)
  }

  /** The credential list: the numbered keys that are set, in order 1, 2, 3; the
      unnumbered key only when none of them is set. */
  function ConfiguredKeys(env: Env): (keys: seq<string>)
    ensures |keys| <= 3
    ensures forall k :: 0 <= k < |keys| ==> keys[k] != ""
    ensures keys == [] <==> !SomeNumberedKeySet(env) && !IsSet(env.fallback)
    ensures !SomeNumberedKeySet(env) ==> keys == (if IsSet(env.fallback) then [env.fallback.value] else [])
  {
    SetValuesOfThree(env.key1, env.key2, env.key3);
    SetValuesOfThree(env.fallback, env.fallback, env.fallback);
    var numbered := SetValues([env.key1, env.key2, env.key3]);
    if numbered != [] then numbered else SetValues([env.fallback])
  }

  /** With a numbered key set, the list is exactly the set numbered keys in order
      and the unnumbered key plays no part. */
  lemma NumberedKeysOnly(env: Env)
    requires SomeNumberedKeySet(env)
    ensures ConfiguredKeys(env) == SetValues([env.key1, env.key2, env.key3])
    ensures forall f :: ConfiguredKeys(env.(fallback := f)) == ConfiguredKeys(env)
  {
    SetValuesOfThree(env.key1, env.key2, env.key3);
  }

  /** getApiKeys: pushes each set numbered key, then the fallback if the list is
      still empty. */
  method GetApiKeys(env: Env) returns (keys: seq<string>)
    ensures keys == ConfiguredKeys(env)
  {
    SetValuesOfThree(env.key1, env.key2, env.key3);
    SetValuesOfThree(env.fallback, env.fallback, env.fallback);
    keys := [];
    if IsSet(env.key1) { keys := keys + [env.key1.value]; }
    if IsSet(env.key2) { keys := keys + [env.key2.value]; }
    if IsSet(env.key3) { keys := keys + [env.key3.value]; }
    if |keys| == 0 {
      if IsSet(env.fallback) { keys := keys + [env.fallback.value]; }
    }
  }

  // ---------------------------------------------------------------------------
  // Credential choice: getRandomKey and the untried filter
  // ---------------------------------------------------------------------------

  /** getRandomKey: `keys[Math.floor(Math.random() * keys.length)]`. The caller
      supplies the floored random index, which is below the length, or 0 for an
      empty list; on an empty list the result is `undefined` (None). */
  function GetRandomKey(keys: seq<string>, index: nat): (k: Option<string>)
    requires index < |keys| || index == 0
    ensures k.Some? <==> keys != []
    ensures k.Some? ==> k.value in keys
  {
    if index < |keys| then Some(keys[index]) else None
  }

  /** `apiKeys.filter(k => !triedKeys.has(k))`. */
  function Untried(keys: seq<string>, tried: set<string>): (r: seq<string>)
    ensures forall k :: k in r <==> k in keys && k !in tried
  {
    if keys == [] then []
    else (if keys[0] in tried then [] else [keys[0]]) + Untried(keys[1..], tried)
  }

  function KeySet(keys: seq<string>): set<string> {
    set k | k in keys
  }

  predicate Distinct(keys: seq<string>) {
    forall i, j :: 0 <= i < j < |keys| ==> keys[i] != keys[j]
  }

  lemma {:induction false} KeySetSize(keys: seq<string>)
    ensures |KeySet(keys)| <= |keys|
    ensures Distinct(keys) ==> |KeySet(keys)| == |keys|
  {
    if keys != [] {
      var rest := keys[1..];
      KeySetSize(rest);
      assert KeySet(keys) == KeySet(rest) + {keys[0]};
      if Distinct(keys) {
        assert Distinct(rest) by {
          forall i, j | 0 <= i < j < |rest| ensures rest[i] != rest[j] {
            assert rest[i] == keys[i + 1] && rest[j] == keys[j + 1];
          }
        }
        assert keys[0] !in KeySet(rest) by {
          forall k | 0 <= k < |rest| ensures rest[k] != keys[0] {
            assert rest[k] == keys[k + 1];
          }
        }
      }
    }
  }

  lemma {:induction false} SubsetSize<T>(a: set<T>, b: set<T>)
    requires a <= b
    ensures |a| <= |b|
    ensures |a| == |b| ==> a == b
    decreases |a|
  {
    if a != {} {
      var x :| x in a;
      SubsetSize(a - {x}, b - {x});
      assert a == (a - {x}) + {x};
      assert b == (b - {x}) + {x};
    } else if |b| == 0 {
      assert b == {};
    }
  }

  // ---------------------------------------------------------------------------
  // The upstream service and the classification of its replies
  // ---------------------------------------------------------------------------

  /** One request to the generative-language service: the credential in the URL
      and the combined prompt text in the body. */
  datatype Call = Call(key: string, text: string)

  /** What `response.json()` yields: either it throws (the runtime's message) or
      it gives an object whose `candidates[0].content.parts[0].text` is present or not. */
  datatype Payload = Unreadable(message: string) | Readable(text: Option<string>)

  /** The settled `await fetch(...)`: a response with its status and body, or a
      rejection (a network failure) with the runtime's message. */
  datatype Reply = Reply(status: nat, payload: Payload) | Rejected(message: string)

  /** The service as an oracle: the reply to the attempt with the given index. */
  type Upstream = (nat, Call) -> Reply

  /** `response.ok`. */
  predicate IsOk(status: nat) {
    200 <= status <= 299
  }

  const RateLimited: nat := 429

  predicate IsRateLimited(r: Reply) {
    r.Reply? && r.status == RateLimited
  }

  /** How the rotation loop ended: a 2xx reply (with its body), every credential
      rate limited, an error status that aborts it, or a rejected `fetch` whose
      error leaves the loop. */
  datatype Outcome = Succeeded(payload: Payload) | Exhausted | Failed(status: nat) | Thrown(message: string)

  predicate AllRateLimited(replies: seq<Reply>) {
    forall i :: 0 <= i < |replies| ==> IsRateLimited(replies[i])
  }

  /** The outcome of a sequence of replies read in order: the first that is not a
      429 decides, and all 429 means the credentials are exhausted. */
  function Classify(replies: seq<Reply>): Outcome {
    if replies == [] then Exhausted
    else if replies[0].Rejected? then Thrown(replies[0].message)
    else if IsOk(replies[0].status) then Succeeded(replies[0].payload)
    else if replies[0].status == RateLimited then Classify(replies[1..])
    else Failed(replies[0].status)
  }

  lemma {:induction false} ClassifyExhausted(replies: seq<Reply>)
    ensures Classify(replies) == Exhausted <==> AllRateLimited(replies)
  {
    if replies != [] {
      ClassifyExhausted(replies[1..]);
      if AllRateLimited(replies) {
        assert AllRateLimited(replies[1..]) by {
          forall i | 0 <= i < |replies| - 1 ensures IsRateLimited(replies[1..][i]) {
            assert replies[1..][i] == replies[i + 1];
          }
        }
      }
      if IsRateLimited(replies[0]) && AllRateLimited(replies[1..]) {
        forall i | 0 <= i < |replies| ensures IsRateLimited(replies[i]) {
          if i > 0 { assert replies[i] == replies[1..][i - 1]; }
        }
      }
    }
  }

  /** The first reply that is not a 429 stands at index k. */
  ghost predicate DecidedAt(replies: seq<Reply>, k: int) {
    0 <= k < |replies| && !IsRateLimited(replies[k]) && AllRateLimited(replies[..k])
  }

  lemma {:induction false} ClassifyDecided(replies: seq<Reply>, k: int)
    requires DecidedAt(replies, k)
    ensures replies[k].Rejected? ==> Classify(replies) == Thrown(replies[k].message)
    ensures replies[k].Reply? && IsOk(replies[k].status) ==> Classify(replies) == Succeeded(replies[k].payload)
    ensures replies[k].Reply? && !IsOk(replies[k].status) ==> Classify(replies) == Failed(replies[k].status)
    decreases k
  {
    if k > 0 {
      assert replies[..k][0] == replies[0];
      var rest := replies[1..];
      assert rest[k - 1] == replies[k];
      assert rest[..k - 1] == replies[1..k];
      assert AllRateLimited(rest[..k - 1]) by {
        forall i | 1 <= i < k ensures IsRateLimited(replies[i]) {
          assert replies[..k][i] == replies[i];
        }
      }
      ClassifyDecided(rest, k - 1);
    }
  }

  /** A success or an abort is always decided by the first reply that is not a 429. */
  lemma {:induction false} ClassifyNotExhausted(replies: seq<Reply>)
    requires Classify(replies) != Exhausted
    ensures exists k :: DecidedAt(replies, k)
  {
    if !IsRateLimited(replies[0]) {
      assert DecidedAt(replies, 0);
    } else {
      ClassifyNotExhausted(replies[1..]);
      var k :| DecidedAt(replies[1..], k);
      assert replies[..k + 1] == [replies[0]] + replies[1..][..k];
      assert DecidedAt(replies, k + 1);
    }
  }

  /** After only 429s, the next reply alone decides. */
  lemma RateLimitedThen(replies: seq<Reply>, r: Reply)
    requires AllRateLimited(replies)
    ensures !IsRateLimited(r) ==> Classify(replies + [r]) == Classify([r])
    ensures IsRateLimited(r) ==> Classify(replies + [r]) == Exhausted
  {
    var all := replies + [r];
    assert all[..|replies|] == replies;
    if !IsRateLimited(r) {
      assert DecidedAt(all, |replies|);
      ClassifyDecided(all, |replies|);
    } else {
      assert AllRateLimited(all) by {
        forall i | 0 <= i < |all| ensures IsRateLimited(all[i]) {
          if i < |replies| { assert all[i] == replies[i]; }
        }
      }
      ClassifyExhausted(all);
    }
  }

  // ---------------------------------------------------------------------------
  // The rotation loop
  // ---------------------------------------------------------------------------

  /** The credentials used so far. */
  ghost function KeysOf(calls: seq<Call>): set<string> {
    set i | 0 <= i < |calls| :: calls[i].key
  }

  /** A log of attempts: each sends `text` with a configured key, no key twice,
      and `replies[i]` is the service's answer to attempt i. */
  ghost predicate IsAttemptLog(keys: seq<string>, text: string, upstream: Upstream, calls: seq<Call>, replies: seq<Reply>) {
    && |replies| == |calls|
    && (forall i :: 0 <= i < |calls| ==> calls[i].key in keys && calls[i].text == text)
    && (forall i :: 0 <= i < |calls| ==> replies[i] == upstream(i, calls[i]))
    && (forall i, j :: 0 <= i < j < |calls| ==> calls[i].key != calls[j].key)
  }

  lemma ExtendAttemptLog(keys: seq<string>, text: string, upstream: Upstream, calls: seq<Call>, replies: seq<Reply>, key: string)
    requires IsAttemptLog(keys, text, upstream, calls, replies)
    requires key in keys && key !in KeysOf(calls)
    ensures IsAttemptLog(keys, text, upstream, calls + [Call(key, text)], replies + [upstream(|calls|, Call(key, text))])
    ensures KeysOf(calls + [Call(key, text)]) == KeysOf(calls) + {key}
  {
    var calls' := calls + [Call(key, text)];
    forall i | 0 <= i < |calls| ensures calls'[i] == calls[i] && calls[i].key in KeysOf(calls) { }
    assert calls'[|calls|].key == key;
  }

  /** `while (triedKeys.size < apiKeys.length)`: picks a random untried key, calls
      the service, stops on 2xx, moves on after a 429, aborts on anything else.
      The guard compares with the number of DISTINCT keys; this equals the
      source's guard whenever the keys are distinct (lemma DistinctGuardsAgree),
      and avoids the `undefined` key the source sends otherwise. */
  method Rotate(keys: seq<string>, text: string, upstream: Upstream)
    returns (calls: seq<Call>, replies: seq<Reply>, outcome: Outcome)
    ensures IsAttemptLog(keys, text, upstream, calls, replies)
    ensures |calls| <= |keys|
    ensures calls == [] <==> keys == []
    ensures calls != [] ==> AllRateLimited(replies[..|replies| - 1])
    ensures outcome == Classify(replies)
    ensures outcome == Exhausted ==> KeysOf(calls) == KeySet(keys)
  {
    var tried: set<string> := {};
    calls, replies, outcome := [], [], Exhausted;
    KeySetSize(keys);
    if keys != [] {
      assert keys[0] in KeySet(keys);
    }
    while |tried| < |KeySet(keys)|
      invariant IsAttemptLog(keys, text, upstream, calls, replies)
      invariant tried == KeysOf(calls) && |tried| == |calls|
      invariant tried <= KeySet(keys)
      invariant AllRateLimited(replies)
      invariant outcome == Exhausted
      decreases |KeySet(keys)| - |tried|
    {
      if KeySet(keys) <= tried {
        SubsetSize(KeySet(keys), tried);
      }
      var untried := Untried(keys, tried);
      var index :| 0 <= index < |untried|;
      var key := GetRandomKey(untried, index).value;
      var reply := upstream(|calls|, Call(key, text));
      RateLimitedThen(replies, reply);
      ExtendAttemptLog(keys, text, upstream, calls, replies, key);
      assert (replies + [reply])[..|replies|] == replies;
      tried := tried + {key};
      calls, replies := calls + [Call(key, text)], replies + [reply];
      if reply.Rejected? {
        outcome := Thrown(reply.message);
        break;
      }
      if IsOk(reply.status) {
        outcome := Succeeded(reply.payload);
        break;
      }
      if reply.status == RateLimited {
        ClassifyExhausted(replies);
        continue;
      }
      outcome := Failed(reply.status);
      break;
    }
    if outcome == Exhausted {
      ClassifyExhausted(replies);
      SubsetSize(tried, KeySet(keys));
    }
  }

  /** For distinct keys the number of distinct keys is the list's length, so the
      loop above runs under the very guard the source writes. */
  lemma DistinctGuardsAgree(keys: seq<string>)
    requires Distinct(keys)
    ensures |KeySet(keys)| == |keys|
  {
    KeySetSize(keys);
  }

  // ---------------------------------------------------------------------------
  // The loop as the source writes it, with duplicate keys
  // ---------------------------------------------------------------------------

  /** `triedKeys` of the source: the defined keys added so far, and whether
      `undefined` has been added. */
  datatype TriedKeys = TriedKeys(defined: set<string>, hasUndefined: bool)

  function TriedSize(t: TriedKeys): nat {
    |t.defined| + if t.hasUndefined then 1 else 0
  }

  /** One pass of the source's loop body: the key it picks (None for `undefined`)
      and the tried set after `triedKeys.add(currentKey)`; None when the guard
      `triedKeys.size < apiKeys.length` no longer holds. */
  function StepAsWritten(keys: seq<string>, t: TriedKeys, index: nat): (r: Option<(Option<string>, TriedKeys)>)
    requires index < |Untried(keys, t.defined)| || index == 0
    ensures r.Some? <==> TriedSize(t) < |keys|
    ensures r.Some? && r.value.0.Some? ==> r.value.0.value in keys && r.value.0.value !in t.defined
  {
    if TriedSize(t) < |keys| then
      var picked := GetRandomKey(Untried(keys, t.defined), index);
      Some((picked, match picked
                    case Some(k) => TriedKeys(t.defined + {k}, t.hasUndefined)
                    case None => TriedKeys(t.defined, true)))
    else None
  }

  /** Two equal keys: after the first attempt the guard still holds (1 < 2) but
      every key is tried, so the second attempt is sent with key `undefined`. */
  lemma DuplicateKeysSendUndefined()
    ensures StepAsWritten(["k", "k"], TriedKeys({"k"}, false), 0) == Some((None, TriedKeys({"k"}, true)))
  {
    assert Untried(["k", "k"], {"k"}) == [];
  }

  /** Three equal keys: once `k` and `undefined` are tried the size stays 2 < 3,
      each pass picks `undefined` again and leaves the state as it was, so the
      loop never ends while the service keeps answering 429. */
  lemma TripleDuplicateKeysNeverExit()
    ensures StepAsWritten(["k", "k", "k"], TriedKeys({"k"}, true), 0) == Some((None, TriedKeys({"k"}, true)))
  {
    assert Untried(["k", "k", "k"], {"k"}) == [];
  }

  /** With distinct keys and `undefined` never tried, the source's filter is never
      empty inside the loop, so its pick is always a configured, untried key. */
  lemma DistinctKeysNeverUndefined(keys: seq<string>, t: TriedKeys, index: nat)
    requires Distinct(keys) && !t.hasUndefined && t.defined <= KeySet(keys)
    requires index < |Untried(keys, t.defined)| || index == 0
    ensures StepAsWritten(keys, t, index).Some? ==> StepAsWritten(keys, t, index).value.0.Some?
  {
    KeySetSize(keys);
    if TriedSize(t) < |keys| && KeySet(keys) <= t.defined {
      SubsetSize(KeySet(keys), t.defined);
    }
  }

  // ---------------------------------------------------------------------------
  // HTTP responses
  // ---------------------------------------------------------------------------

  datatype Body<J> = NoBody | ErrorBody(error: string) | ResultBody(field: string, value: J)

  datatype HttpResponse<J> = HttpResponse(status: nat, headers: seq<(string, string)>, body: Body<J>)

  const CorsHeaders: seq<(string, string)> := [
    ("Access-Control-Allow-Origin", "*"),
    ("Access-Control-Allow-Headers", "authorization, x-client-info, apikey, content-type")
  ]

  const JsonHeaders: seq<(string, string)> := CorsHeaders + [("Content-Type", "application/json")]

  const NoKeysMessage: string := "No Gemini API keys configured"
  const AllRateLimitedMessage: string := "All API keys rate limited. Please try again later."
  const ParseFailureMessage: string := "Failed to parse AI response as JSON"
  const UpstreamErrorPrefix: string := "Gemini API error: "

  /** The answer to an OPTIONS preflight: `new Response(null, { headers: corsHeaders })`. */
  function Preflight<J>(): (r: HttpResponse<J>)
    ensures r.status == 200 && r.body == NoBody && r.headers == CorsHeaders
  {
    HttpResponse(200, CorsHeaders, NoBody)
  }

  /** A JSON error response `{ error: message }`, as every thrown Error turns into. */
  function JsonError<J>(status: nat, message: string): HttpResponse<J> {
    HttpResponse(status, JsonHeaders, ErrorBody(message))
  }

  /** `Gemini API error: ${response.status}`: the fixed text, then the status in
      decimal, which can be read back from it. */
  function UpstreamErrorMessage(status: nat): (m: string)
    ensures |m| > |UpstreamErrorPrefix| && m[..|UpstreamErrorPrefix|] == UpstreamErrorPrefix
    ensures AllDigits(m[|UpstreamErrorPrefix|..]) && StringToNat(m[|UpstreamErrorPrefix|..]) == status
  {
    var m := UpstreamErrorPrefix + NatToString(status);
    assert m[|UpstreamErrorPrefix|..] == NatToString(status);
    StringToNatInverse(status);
    m
  }

  /** The parsed model output of a successful reply: the text present, a brace
      span in it, and JSON.parse (`parse`) accepting the span. */
  function ParsedContent<J>(payload: Payload, parse: string -> Option<J>): (r: Option<J>)
    ensures r.Some? <==> payload.Readable? && payload.text.Some? && ExtractSpan(payload.text.value).Some?
                         && parse(ExtractSpan(payload.text.value).value).Some?
    ensures r.Some? ==> r == parse(ExtractSpan(payload.text.value).value)
  {
    match payload
    case Unreadable(_) => None
    case Readable(None) => None
    case Readable(Some(text)) =>
      match ExtractSpan(text)
      case None => None
      case Some(span) => parse(span)
  }

  /** The handler after the loop: 429 when every key was rate limited, 500 with
      the status on an abort, 500 with the runtime's message when `fetch`
      rejected, 500 when the model text cannot be parsed, and 200 with the
      parsed value under `field`, passed through unchecked. */
  function Conclude<J>(field: string, outcome: Outcome, parse: string -> Option<J>): (r: HttpResponse<J>)
    ensures r.headers == JsonHeaders
    ensures r.status == 200 || r.status == 429 || r.status == 500
    ensures r.status == 429 <==> outcome.Exhausted?
    ensures outcome.Exhausted? ==> r.body == ErrorBody(AllRateLimitedMessage)
    ensures outcome.Failed? ==> r.status == 500 && r.body == ErrorBody(UpstreamErrorMessage(outcome.status))
    ensures outcome.Thrown? ==> r.status == 500 && r.body == ErrorBody(outcome.message)
    ensures r.status == 200 <==> outcome.Succeeded? && ParsedContent(outcome.payload, parse).Some?
    ensures r.status == 200 ==> r.body == ResultBody(field, ParsedContent(outcome.payload, parse).value)
    ensures outcome.Succeeded? && outcome.payload.Readable? && r.status != 200 ==>
      r.status == 500 && r.body == ErrorBody(ParseFailureMessage)
    ensures outcome.Succeeded? && outcome.payload.Unreadable? ==>
      r.status == 500 && r.body == ErrorBody(outcome.payload.message)
  {
    match outcome
    case Exhausted => JsonError(429, AllRateLimitedMessage)
    case Failed(status) => JsonError(500, UpstreamErrorMessage(status))
    case Thrown(message) => JsonError(500, message)
    case Succeeded(payload) =>
      if payload.Unreadable? then JsonError(500, payload.message)
      else
        match ParsedContent(payload, parse)
        case None => JsonError(500, ParseFailureMessage)
        case Some(value) => HttpResponse(200, JsonHeaders, ResultBody(field, value))
  }

  /** `${systemPrompt}\n\n${userPrompt}`: the system prompt, a blank line, the user prompt. */
  function CombinedPrompt(system: string, user: string): (text: string)
    ensures |text| == |system| + 2 + |user|
    ensures text[..|system|] == system && text[|system|..|system| + 2] == "\n\n" && text[|system| + 2..] == user
  {
    system + "\n\n" + user
  }

  /** A request field interpolated into a template literal: its text, or
      "undefined" when the field is missing from the request body. */
  function TemplateText(v: Option<string>): (t: string)
    ensures v.Some? ==> t == v.value
    ensures v.None? ==> t == "undefined"
  {
    match v
    case Some(s) => s
    case None => "undefined"
  }

  /** The replies the service gives to a sequence of attempts. */
  function RepliesTo(calls: seq<Call>, upstream: Upstream): (r: seq<Reply>)
    ensures |r| == |calls| && forall i :: 0 <= i < |calls| ==> r[i] == upstream(i, calls[i])
  {
    seq(|calls|, i requires 0 <= i < |calls| => upstream(i, calls[i]))
  }
}
