/** The library functions the client calls but whose internals are not modelled:
    they are passed in, so every property below holds whatever they compute. */
module Library {
  import opened Outcomes
  import opened JsonValue

  datatype Primitives = Primitives(
    /** Hex digest of HMAC-SHA1 with the given key over the given message (`_api_sig`). */
    hmacSha1: (string, string) -> string,
    /** `json.dumps(value, separators=(',', ':'), sort_keys=True)`. */
    dumps: Json -> string,
    /** `json.loads(text)`; `None` when it raises `ValueError`. */
    loads: string -> Option<Json>,
    /** `urllib.quote_plus`, which `urllib.urlencode` applies to every key and value. */
    quotePlus: string -> string)
}
