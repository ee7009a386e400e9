/** How `_request` turns a parameter dict into a signed request (mygengo.py:99-102,
    127-151): a sorted, signed query string for GET and DELETE, a signed `data`
    form for POST and PUT. */
module Signing {
  import opened Outcomes
  import opened JsonValue
  import opened KeyOrder
  import opened Decimal
  import opened SlashEscape
  import opened Library

  datatype Verb = GET | POST | PUT | DELETE {
    /** POST and PUT carry their parameters as a JSON `data` form field. */
    predicate HasBody() { POST? || PUT? }
  }

  /** What goes to the transport: the query string of a GET/DELETE, or the form
      fields of a POST/PUT (which `urllib.urlencode` then serialises). */
  datatype Outgoing = Outgoing(verb: Verb, path: string, query: Option<string>,
                               form: Option<map<string, Json>>)

  /** A Python dict that `_request` rebinds and fills in place. */
  class ParamDict {
    var entries: map<string, Json>

    constructor (entries: map<string, Json>)
      ensures this.entries == entries
    {
      this.entries := entries;
    }

    /** `dict.copy()`: a new dict with the same entries. */
    method Copy() returns (c: ParamDict)
      ensures fresh(c) && c.entries == entries
    {
      c := new ParamDict(entries);
    }

    /** `d[key] = value`. */
    method Put(key: string, value: Json)
      modifies this
      ensures entries == old(entries)[key := value]
    {
      entries := entries[key := value];
    }
  }

  /** `str(int(time.time()))` for a clock reading in milliseconds. */
  function Timestamp(clockMs: nat): (ts: string)
    ensures AllDigits(ts) && ParseNat(ts) == clockMs / 1000
    ensures |ts| >= 1 && (ts[0] == '0' ==> ts == "0")
  {
    NatRoundTrip(clockMs / 1000);
    IntToDecimal(clockMs / 1000)
  }

  /** The entries after `_add_api_key`: `api_key` and `ts` set, everything else kept. */
  function WithApiKey(params: map<string, Json>, apiKey: string, ts: string)
    : (r: map<string, Json>)
    ensures r.Keys == params.Keys + {"api_key", "ts"}
    ensures r["api_key"] == JStr(apiKey) && r["ts"] == JStr(ts)
    ensures forall k :: k in params && k != "api_key" && k != "ts" ==> r[k] == params[k]
  {
    params["api_key" := JStr(apiKey)]["ts" := JStr(ts)]
  }

  /** `_add_api_key` keeps a dict of strings a dict of strings. */
  lemma WithApiKeyStrings(params: map<string, Json>, apiKey: string, ts: string)
    requires AllStrings(params)
    ensures AllStrings(WithApiKey(params, apiKey, ts))
  {
  }

  /** The `(key, value)` pairs for the names `keys`, in that order. */
  function ItemsOf(params: map<string, Json>, keys: seq<string>): (r: seq<(string, string)>)
    requires AllStrings(params)
    requires forall i :: 0 <= i < |keys| ==> keys[i] in params
    ensures |r| == |keys|
    ensures forall i :: 0 <= i < |r| ==> r[i].0 == keys[i] && params[keys[i]] == JStr(r[i].1)
  {
    if keys == [] then []
    else
      var last := keys[|keys| - 1];
      ItemsOf(params, keys[..|keys| - 1]) + [(last, params[last].s)]
  }

  /** `sorted(params.iteritems())`. */
  function SortedItems(params: map<string, Json>): seq<(string, string)>
    requires AllStrings(params)
  {
    ItemsOf(params, SortedKeys(params.Keys))
  }

  /** The loop of lines 146-148, building `utf8_params` in sorted key order. */
  method Utf8Params(params: map<string, Json>) returns (pairs: seq<(string, string)>)
    requires AllStrings(params)
    ensures pairs == SortedItems(params)
  {
    var keys := SortedKeys(params.Keys);
    pairs := [];
    for i := 0 to |keys|
      invariant pairs == ItemsOf(params, keys[..i])
    {
      ItemsOfExtend(params, keys, i);
      pairs := pairs + [(keys[i], params[keys[i]].s)];
    }
    assert keys[..|keys|] == keys;
  }

  /** One more name adds its pair at the end. */
  lemma ItemsOfExtend(params: map<string, Json>, keys: seq<string>, i: nat)
    requires AllStrings(params) && i < |keys|
    requires forall j :: 0 <= j < |keys| ==> keys[j] in params
    ensures ItemsOf(params, keys[..i + 1]) == ItemsOf(params, keys[..i]) + [(keys[i], params[keys[i]].s)]
  {
    assert keys[..i + 1][..i] == keys[..i];
  }

  /** The signed pairs hold every parameter once, in ascending name order, each with
      its own value. */
  lemma SortedItemsCanonical(params: map<string, Json>)
    requires AllStrings(params)
    ensures var items := SortedItems(params);
            && |items| == |params|
            && (set i | 0 <= i < |items| :: items[i].0) == params.Keys
            && (forall i :: 0 <= i < |items| ==> params[items[i].0] == JStr(items[i].1))
            && (forall i, j :: 0 <= i < j < |items| ==> Before(items[i].0, items[j].0))
  {
    var keys := SortedKeys(params.Keys);
    var items := ItemsOf(params, keys);
    assert |items| == |params| by {
      assert |params.Keys| == |params|;
    }
    assert (set i | 0 <= i < |items| :: items[i].0) == params.Keys by {
      NamesOfItems(params, keys);
    }
    assert forall i, j :: 0 <= i < j < |items| ==> Before(items[i].0, items[j].0) by {
      assert Ascending(keys);
    }
  }

  /** The names of `ItemsOf(params, keys)` are exactly those of `keys`. */
  lemma NamesOfItems(params: map<string, Json>, keys: seq<string>)
    requires AllStrings(params)
    requires forall i :: 0 <= i < |keys| ==> keys[i] in params
    requires forall k :: k in params ==> k in keys
    ensures var items := ItemsOf(params, keys);
            (set i | 0 <= i < |items| :: items[i].0) == params.Keys
  {
    var items := ItemsOf(params, keys);
    var names := set i | 0 <= i < |items| :: items[i].0;
    forall k | k in params ensures k in names {
      var i :| 0 <= i < |keys| && keys[i] == k;
      assert items[i].0 == k;
    }
  }

  /** One `key=value` field of `urllib.urlencode`. */
  function Field(pair: (string, string), quotePlus: string -> string): string
  {
    quotePlus(pair.0) + "=" + quotePlus(pair.1)
  }

  /** `urllib.urlencode` of a list of pairs: the fields joined with `&`, in order. */
  function FormEncode(pairs: seq<(string, string)>, quotePlus: string -> string): string
  {
    if pairs == [] then ""
    else if |pairs| == 1 then Field(pairs[0], quotePlus)
    else FormEncode(pairs[..|pairs| - 1], quotePlus) + "&" + Field(pairs[|pairs| - 1], quotePlus)
  }

  /** Appending `&api_sig=<sig>` to the encoded query is the same as encoding the
      signed pairs with `api_sig` as the last pair (`quote_plus` leaves `api_sig` and a
      hex digest alone). */
  lemma {:induction false} SignatureAppendedLast(pairs: seq<(string, string)>, sig: string,
                                                 quotePlus: string -> string)
    requires pairs != []
    requires quotePlus("api_sig") == "api_sig" && quotePlus(sig) == sig
    ensures FormEncode(pairs + [("api_sig", sig)], quotePlus)
            == FormEncode(pairs, quotePlus) + "&api_sig=" + sig
  {
    var all := pairs + [("api_sig", sig)];
    assert all[..|all| - 1] == pairs;
  }

  /** Lines 144-150: the query string of a GET or DELETE. */
  function SignedQuery(params: map<string, Json>, apiKey: string, ts: string,
                       privateKey: string, lib: Primitives): string
    requires AllStrings(params)
  {
    var query := FormEncode(SortedItems(WithApiKey(params, apiKey, ts)), lib.quotePlus);
    query + "&api_sig=" + lib.hmacSha1(privateKey, query)
  }

  /** The pairs a GET/DELETE signs: every caller parameter plus `api_key` and `ts`,
      each name once, ascending. */
  lemma SignedNames(params: map<string, Json>, apiKey: string, ts: string)
    requires AllStrings(params)
    ensures var items := SortedItems(WithApiKey(params, apiKey, ts));
            && (set i | 0 <= i < |items| :: items[i].0) == params.Keys + {"api_key", "ts"}
            && (forall i, j :: 0 <= i < j < |items| ==> Before(items[i].0, items[j].0))
  {
    SortedItemsCanonical(WithApiKey(params, apiKey, ts));
  }

  /** Lines 132-133: the caller's dict JSON-encoded into `data`, then `api_key`, `ts`. */
  function PostParams(params: map<string, Json>, apiKey: string, ts: string, lib: Primitives)
    : map<string, Json>
  {
    WithApiKey(map["data" := JStr(lib.dumps(JObj(params)))], apiKey, ts)
  }

  /** Lines 135-138: the message a POST/PUT signature is computed over. */
  function SigningMessage(params: map<string, Json>, apiKey: string, ts: string,
                          lib: Primitives): string
  {
    EscapeSlashes(lib.dumps(JObj(PostParams(params, apiKey, ts, lib))))
  }

  /** Lines 132-139: the form fields of a POST or PUT. */
  function PostForm(params: map<string, Json>, apiKey: string, ts: string,
                    privateKey: string, lib: Primitives): map<string, Json>
  {
    var fields := PostParams(params, apiKey, ts, lib);
    fields["api_sig" := JStr(lib.hmacSha1(privateKey, SigningMessage(params, apiKey, ts, lib)))]
  }

  /** A POST/PUT sends exactly `data`, `api_key`, `ts` and `api_sig`; `data` is the
      caller's dict serialised; the signature covers the serialised fields with every
      slash escaped, which leaves no bare slash and adds one character per slash. */
  lemma PostFormShape(params: map<string, Json>, apiKey: string, ts: string,
                      privateKey: string, lib: Primitives)
    ensures var form := PostForm(params, apiKey, ts, privateKey, lib);
            var serialised := lib.dumps(JObj(PostParams(params, apiKey, ts, lib)));
            var message := SigningMessage(params, apiKey, ts, lib);
            form.Keys == {"data", "api_key", "ts", "api_sig"}
            && form["data"] == JStr(lib.dumps(JObj(params)))
            && form["api_key"] == JStr(apiKey) && form["ts"] == JStr(ts)
            && form["api_sig"] == JStr(lib.hmacSha1(privateKey, message))
            && NoBareSlash(message) && Unescape(message) == serialised
            && |message| == |serialised| + Count(serialised, '/')
  {
    UnescapeEscape(lib.dumps(JObj(PostParams(params, apiKey, ts, lib))));
  }

  /** The request lines 127-151 prepare for `verb`, given the caller's entries. */
  function Prepare(verb: Verb, path: string, params: map<string, Json>, apiKey: string,
                   ts: string, privateKey: string, lib: Primitives): Outgoing
    requires !verb.HasBody() ==> AllStrings(params)
  {
    if verb.HasBody() then Outgoing(verb, path, None, Some(PostForm(params, apiKey, ts, privateKey, lib)))
    else Outgoing(verb, path, Some(SignedQuery(params, apiKey, ts, privateKey, lib)), None)
  }
}
