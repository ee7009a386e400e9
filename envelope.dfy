/** What `_request` does with a response body once the HTTP exchange has succeeded
    (mygengo.py:180-201), and `Client._check_json` (mygengo.py:84-87). */
module Envelope {
  import opened Outcomes
  import opened JsonValue
  import opened Errors

  /** What `_request` returns: the raw body, or the decoded `response` payload. */
  datatype Reply = RawBody(body: string) | Payload(value: Json)

  /** `_check_json(response, field)` followed by the subscript `response[field]` that
      every caller performs next. */
  function CheckJson(response: Json, field: string): (r: Result<Json, Error>)
    ensures r.Success? <==> HasField(response, field)
    ensures r.Success? ==> r.value == response.fields[field]
    ensures r.Failure? ==> r.error == JsonError(JSON_ERROR_CODE, MissingField(field))
  {
    if HasField(response, field) then Success(response.fields[field])
    else Failure(JsonError(JSON_ERROR_CODE, MissingField(field)))
  }

  /** A well-formed success envelope: `opstat` is "ok" and a payload is present. */
  predicate IsOkEnvelope(response: Json)
  {
    HasField(response, "opstat") && response.fields["opstat"] == JStr("ok")
    && HasField(response, "response")
  }

  /** A well-formed error envelope: `opstat` is "error" and `err` carries `code` and `msg`. */
  predicate IsErrorEnvelope(response: Json)
  {
    HasField(response, "opstat") && response.fields["opstat"] == JStr("error")
    && HasField(response, "err")
    && HasField(response.fields["err"], "code") && HasField(response.fields["err"], "msg")
  }

  /** Lines 190-201: accept the envelope's payload, raise the server's error, or
      reject the document as bad JSON. */
  function CheckEnvelope(response: Json): (r: Result<Json, Error>)
    ensures r.Success? <==> IsOkEnvelope(response)
    ensures r.Success? ==> r.value == response.fields["response"]
    ensures (r.Failure? && r.error.MygengoError?) <==> IsErrorEnvelope(response)
    ensures IsErrorEnvelope(response) ==>
              r.error.remoteCode == response.fields["err"].fields["code"]
              && r.error.remoteMsg == response.fields["err"].fields["msg"]
    ensures r.Failure? && !r.error.MygengoError? ==>
              r.error.JsonError? && r.error.code == JSON_ERROR_CODE
  {
    var opstat :- CheckJson(response, "opstat");
    if opstat != JStr("ok") && opstat != JStr("error") then
      Failure(JsonError(JSON_ERROR_CODE, UnknownOpstat(opstat)))
    else if opstat == JStr("error") then
      var err :- CheckJson(response, "err");
      var code :- CheckJson(err, "code");
      var msg :- CheckJson(err, "msg");
      Failure(MygengoError(code, msg))
    else
      CheckJson(response, "response")
  }

  /** Lines 180-201 from the body `f.read()` returned: raw when `parse_json` is false,
      otherwise decoded and checked. */
  function DecodeResponse(body: string, parseJson: bool, loads: string -> Option<Json>)
    : (r: Result<Reply, Error>)
    ensures !parseJson ==> r == Success(RawBody(body))
    ensures parseJson ==>
              (r.Success? <==> loads(body).Some? && IsOkEnvelope(loads(body).value))
    ensures parseJson && r.Success? ==>
              r.value == Payload(loads(body).value.fields["response"])
    ensures parseJson && loads(body).None? ==>
              r == Failure(JsonError(JSON_ERROR_CODE, Unparsable))
    ensures parseJson && loads(body).Some? && r.Failure? ==>
              r.error == CheckEnvelope(loads(body).value).error
  {
    if !parseJson then Success(RawBody(body))
    else
      match loads(body)
      case None => Failure(JsonError(JSON_ERROR_CODE, Unparsable))
      case Some(response) =>
        var payload :- CheckEnvelope(response);
        Success(Payload(payload))
  }

  /** A document without `opstat` is bad JSON whatever else it holds. */
  lemma MissingOpstat(response: Json)
    requires !HasField(response, "opstat")
    ensures CheckEnvelope(response) == Failure(JsonError(JSON_ERROR_CODE, MissingField("opstat")))
  {
  }

  /** An `opstat` other than "ok" or "error" is bad JSON, and the value is reported. */
  lemma UnknownOpstatRejected(response: Json)
    requires HasField(response, "opstat")
    requires response.fields["opstat"] != JStr("ok") && response.fields["opstat"] != JStr("error")
    ensures CheckEnvelope(response)
            == Failure(JsonError(JSON_ERROR_CODE, UnknownOpstat(response.fields["opstat"])))
  {
  }

  /** An error envelope lacking `err`, `err.code` or `err.msg` is bad JSON naming the
      first missing field, never a server error. */
  lemma IncompleteErrorEnvelope(response: Json)
    requires HasField(response, "opstat") && response.fields["opstat"] == JStr("error")
    requires !IsErrorEnvelope(response)
    ensures var missing :=
              if !HasField(response, "err") then "err"
              else if !HasField(response.fields["err"], "code") then "code"
              else "msg";
            CheckEnvelope(response) == Failure(JsonError(JSON_ERROR_CODE, MissingField(missing)))
  {
  }

  /** The envelope the server sends on success. */
  function OkEnvelope(payload: Json): Json
  {
    JObj(map["opstat" := JStr("ok"), "response" := payload])
  }

  /** The envelope the server sends on failure. */
  function ErrorEnvelope(code: Json, msg: Json): Json
  {
    JObj(map["opstat" := JStr("error"), "err" := JObj(map["code" := code, "msg" := msg])])
  }

  /** Whatever payload the server wraps, the client hands back unchanged. */
  lemma OkEnvelopeRoundTrip(payload: Json)
    ensures CheckEnvelope(OkEnvelope(payload)) == Success(payload)
  {
    assert "opstat" != "response";
  }

  /** Whatever code and message the server reports, the client raises exactly those. */
  lemma ErrorEnvelopeRoundTrip(code: Json, msg: Json)
    ensures CheckEnvelope(ErrorEnvelope(code, msg)) == Failure(MygengoError(code, msg))
  {
    assert "opstat" != "err" && "code" != "msg";
  }

  /** `get_account_balance` (mygengo.py:215-217) on `{"opstat":"ok","response":{"credits":"120.00"}}`. */
  lemma BalanceExample()
    ensures var doc := OkEnvelope(JObj(map["credits" := JStr("120.00")]));
            var payload := CheckEnvelope(doc);
            payload.Success? && CheckJson(payload.value, "credits") == Success(JStr("120.00"))
  {
    OkEnvelopeRoundTrip(JObj(map["credits" := JStr("120.00")]));
  }
}
