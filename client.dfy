/** `Client` (mygengo.py:78-201): credentials, the endpoint, the rate-limit clock
    and the generic request path. Clock readings, the network and the library
    functions are parameters of the methods that use them. */
module Mygengo {
  import opened Outcomes
  import opened JsonValue
  import opened Errors
  import opened Library
  import opened Envelope
  import opened Retry
  import opened RateLimit
  import opened Signing

  const API_URL: string := "http://api.mygengo.com/v1/"
  const SANDBOX_API_URL: string := "http://api.sandbox.mygengo.com/v1/"

  class Client {
    const apiUrl: string
    const apiKey: string
    const privateKey: string
    /** `_last_request_time`: `None` until the first request. */
    var lastRequestTime: Option<nat>

    /** `Client.__init__` (mygengo.py:89-97): picks the endpoint, nothing is sent. */
    constructor (apiKey: string, privateKey: string, sandbox: bool)
      ensures apiUrl == (if sandbox then SANDBOX_API_URL else API_URL)
      ensures this.apiKey == apiKey && this.privateKey == privateKey
      ensures lastRequestTime == None
    {
      this.apiUrl := if sandbox then SANDBOX_API_URL else API_URL;
      this.apiKey := apiKey;
      this.privateKey := privateKey;
      this.lastRequestTime := None;
    }

    /** `_wait_between_requests` as written (mygengo.py:109-118), entered at clock
        `now`: returns the sleep and records `now`, the reading taken before it. */
    method WaitBetweenRequests(now: nat) returns (delay: nat)
      modifies this
      ensures delay == WaitDelay(old(lastRequestTime), now)
      ensures old(lastRequestTime).None? ==> delay == 0
      ensures lastRequestTime == Some(now)
    {
      delay := 0;
      if Truthy(lastRequestTime) && now - lastRequestTime.value < TIME_BETWEEN_REQUESTS_MS {
        delay := TIME_BETWEEN_REQUESTS_MS - (now - lastRequestTime.value);
      }
      lastRequestTime := Some(now);
    }

    /** `_wait_between_requests` as intended: it records the moment the request
        leaves, so the next one is held until 500 ms after that. */
    method WaitBetweenRequestsIntended(now: nat) returns (delay: nat)
      modifies this
      ensures delay == IntendedDelay(old(lastRequestTime), now)
      ensures old(lastRequestTime).Some? && now >= old(lastRequestTime).value ==>
                now + delay >= old(lastRequestTime).value + TIME_BETWEEN_REQUESTS_MS
      ensures lastRequestTime == Some(now + delay)
    {
      delay := 0;
      if lastRequestTime.Some? && now - lastRequestTime.value < TIME_BETWEEN_REQUESTS_MS {
        delay := TIME_BETWEEN_REQUESTS_MS - (now - lastRequestTime.value);
      }
      lastRequestTime := Some(now + delay);
    }

    /** `_add_api_key` (mygengo.py:99-102), with `clockMs` the reading of `time.time()`. */
    method AddApiKey(params: ParamDict, clockMs: nat)
      modifies params
      ensures params.entries == WithApiKey(old(params.entries), apiKey, Timestamp(clockMs))
    {
      params.Put("api_key", JStr(apiKey));
      params.Put("ts", JStr(Timestamp(clockMs)));
    }

    /** Lines 130-141: the POST/PUT branch. `params` itself is left alone; a new dict
        is built around its serialisation. */
    method PrepareBody(verb: Verb, path: string, params: ParamDict, lib: Primitives,
                       signingClock: nat) returns (sent: Outgoing)
      requires verb.HasBody()
      ensures sent == Prepare(verb, path, params.entries, apiKey, Timestamp(signingClock),
                              privateKey, lib)
    {
      var wrapped := new ParamDict(map["data" := JStr(lib.dumps(JObj(params.entries)))]);
      AddApiKey(wrapped, signingClock);
      var data := lib.dumps(JObj(wrapped.entries));
      data := SlashEscape.EscapeSlashes(data);
      wrapped.Put("api_sig", JStr(lib.hmacSha1(privateKey, data)));
      sent := Outgoing(verb, path, None, Some(wrapped.entries));
    }

    /** Lines 142-151: the GET/DELETE branch, which signs a sorted copy of `params`. */
    method PrepareQuery(verb: Verb, path: string, params: ParamDict, lib: Primitives,
                        signingClock: nat) returns (sent: Outgoing)
      requires !verb.HasBody() && AllStrings(params.entries)
      ensures sent == Prepare(verb, path, params.entries, apiKey, Timestamp(signingClock),
                              privateKey, lib)
    {
      var copy := params.Copy();
      AddApiKey(copy, signingClock);
      ghost var signed := WithApiKey(params.entries, apiKey, Timestamp(signingClock));
      assert copy.entries == signed;
      WithApiKeyStrings(params.entries, apiKey, Timestamp(signingClock));
      var utf8Params := Utf8Params(copy.entries);
      var query := FormEncode(utf8Params, lib.quotePlus);
      assert query == FormEncode(SortedItems(signed), lib.quotePlus);
      query := query + "&api_sig=" + lib.hmacSha1(privateKey, query);
      sent := Outgoing(verb, path, Some(query), None);
    }

    /** `_request` (mygengo.py:120-201). `entryClock` is the reading taken by the rate
        limit, `signingClock` the one `_add_api_key` takes, and `transport(i)` what the
        i-th attempt gets back. The caller's dict is never changed. */
    method Request(verb: Verb, path: string, params: ParamDict?, parseJson: bool,
                   lib: Primitives, entryClock: nat, signingClock: nat,
                   transport: nat -> Attempt)
      returns (r: Result<Reply, Error>, sent: Outgoing, delay: nat, sleeps: nat)
      requires params != null && !verb.HasBody() ==> AllStrings(params.entries)
      modifies this
      ensures delay == IntendedDelay(old(lastRequestTime), entryClock)
      ensures lastRequestTime == Some(entryClock + delay)
      ensures params != null ==> params.entries == old(params.entries)
      ensures sent == Prepare(verb, path, if params == null then map[] else params.entries,
                              apiKey, Timestamp(signingClock), privateKey, lib)
      ensures sleeps == Retries(transport).sleeps
      ensures var run := Retries(transport);
              r == if run.result.Failure? then Failure(run.result.error)
                   else DecodeResponse(run.result.value, parseJson, lib.loads)
    {
      delay := WaitBetweenRequestsIntended(entryClock);

      var p: ParamDict;
      if params == null {
        p := new ParamDict(map[]);
      } else {
        p := params;
      }
      ghost var entries := p.entries;
      assert entries == if params == null then map[] else params.entries;
      if verb.HasBody() {
        sent := PrepareBody(verb, path, p, lib, signingClock);
      } else {
        sent := PrepareQuery(verb, path, p, lib, signingClock);
      }
      assert sent == Prepare(verb, path, entries, apiKey, Timestamp(signingClock), privateKey, lib);

      var result, attempts;
      result, attempts, sleeps := SendWithRetry(transport);
      if result.Failure? {
        r := Failure(result.error);
        return;
      }
      r := DecodeResponse(result.value, parseJson, lib.loads);
    }
  }
}
