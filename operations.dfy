/** The parameter dicts the operations hand to `_request`. `JNull` stands for a
    Python argument left at `None`. */
module Operations {
  import opened Outcomes
  import opened JsonValue
  import opened Decimal

  /** `str(int(flag))` for a boolean. */
  function FlagString(flag: bool): (s: string)
    ensures s == "1" <==> flag
    ensures s == "0" <==> !flag
  {
    if flag then "1" else "0"
  }

  /** The entry `key: value` when the argument was given, nothing for `None`. */
  function IfGiven(key: string, value: Json): (r: map<string, Json>)
    ensures r.Keys <= {key}
    ensures key in r <==> value != JNull
    ensures key in r ==> r[key] == value
  {
    if value == JNull then map[] else map[key := value]
  }

  /** `fields` holds `key` exactly when its argument `value` was given, with that value. */
  predicate SentIfGiven(fields: map<string, Json>, key: string, value: Json)
  {
    (key in fields <==> value != JNull) && (key in fields ==> fields[key] == value)
  }

  /** The fields `submit_job` always sends. */
  function RequiredJobFields(text: Json, target: Json, source: Json, tier: Json,
                             autoApprove: bool): map<string, Json>
  {
    map["body_src" := text, "lc_src" := source, "lc_tgt" := target,
        "tier" := tier, "auto_approve" := JStr(FlagString(autoApprove))]
  }

  /** The fields `submit_job` sends only when given. */
  function OptionalJobFields(slug: Json, customData: Json, comment: Json, callbackUrl: Json)
    : map<string, Json>
  {
    IfGiven("slug", slug) + IfGiven("custom_data", customData)
      + IfGiven("comment", comment) + IfGiven("callback_url", callbackUrl)
  }

  /** Each optional field is present iff given, with its own value, and no other
      name appears among them. */
  lemma OptionalJobFieldsGiven(slug: Json, customData: Json, comment: Json, callbackUrl: Json)
    ensures var fields := OptionalJobFields(slug, customData, comment, callbackUrl);
            && fields.Keys <= {"slug", "custom_data", "comment", "callback_url"}
            && SentIfGiven(fields, "slug", slug)
            && SentIfGiven(fields, "custom_data", customData)
            && SentIfGiven(fields, "comment", comment)
            && SentIfGiven(fields, "callback_url", callbackUrl)
  {
    var a := IfGiven("slug", slug);
    var b := IfGiven("custom_data", customData);
    var c := IfGiven("comment", comment);
    var d := IfGiven("callback_url", callbackUrl);
    assert "slug" !in b && "slug" !in c && "slug" !in d;
    assert "custom_data" !in c && "custom_data" !in d;
    assert "comment" !in d;
  }

  /** The names `submit_job` always sends are none of the optional ones. */
  lemma OptionalNamesDistinct()
    ensures {"body_src", "lc_src", "lc_tgt", "tier", "auto_approve"}
            !! {"slug", "custom_data", "comment", "callback_url"}
  {
  }

  /** The whole job dict: the required fields with their values, and each optional
      one iff given. */
  lemma JobFieldsShape(text: Json, target: Json, source: Json, tier: Json, slug: Json,
                       autoApprove: bool, customData: Json, comment: Json, callbackUrl: Json)
    ensures var fields := RequiredJobFields(text, target, source, tier, autoApprove)
                          + OptionalJobFields(slug, customData, comment, callbackUrl);
            && fields.Keys >= {"body_src", "lc_src", "lc_tgt", "tier", "auto_approve"}
            && fields.Keys <= {"body_src", "lc_src", "lc_tgt", "tier", "auto_approve",
                               "slug", "custom_data", "comment", "callback_url"}
            && fields["body_src"] == text && fields["lc_src"] == source
            && fields["lc_tgt"] == target && fields["tier"] == tier
            && fields["auto_approve"] == JStr(FlagString(autoApprove))
            && SentIfGiven(fields, "slug", slug)
            && SentIfGiven(fields, "custom_data", customData)
            && SentIfGiven(fields, "comment", comment)
            && SentIfGiven(fields, "callback_url", callbackUrl)
  {
    var required := RequiredJobFields(text, target, source, tier, autoApprove);
    var optional := OptionalJobFields(slug, customData, comment, callbackUrl);
    OptionalJobFieldsGiven(slug, customData, comment, callbackUrl);
    OptionalNamesDistinct();
    assert required.Keys == {"body_src", "lc_src", "lc_tgt", "tier", "auto_approve"};
    assert required.Keys !! optional.Keys;
  }

  /** `submit_job` (mygengo.py:303-325): the job dict it assembles when no `job` is
      given, wrapped as `{'job': job}`. The defaults are those of its signature. */
  method SubmitJobParams(text: Json := JNull, target: Json := JNull,
                         source: Json := JStr("en"), tier: Json := JStr("machine"),
                         slug: Json := JNull, autoApprove: bool := false,
                         customData: Json := JNull, comment: Json := JNull,
                         callbackUrl: Json := JNull, job: Json := JNull)
    returns (params: map<string, Json>)
    ensures params.Keys == {"job"}
    ensures job != JNull ==> params["job"] == job
    ensures job == JNull ==> params["job"].JObj?
    ensures job == JNull ==>
              var fields := params["job"].fields;
              && fields.Keys >= {"body_src", "lc_src", "lc_tgt", "tier", "auto_approve"}
              && fields.Keys <= {"body_src", "lc_src", "lc_tgt", "tier", "auto_approve",
                                 "slug", "custom_data", "comment", "callback_url"}
              && fields["body_src"] == text && fields["lc_src"] == source
              && fields["lc_tgt"] == target && fields["tier"] == tier
              && fields["auto_approve"] == JStr(FlagString(autoApprove))
              && SentIfGiven(fields, "slug", slug)
              && SentIfGiven(fields, "custom_data", customData)
              && SentIfGiven(fields, "comment", comment)
              && SentIfGiven(fields, "callback_url", callbackUrl)
  {
    var theJob := job;
    if job == JNull {
      var fields := RequiredJobFields(text, target, source, tier, autoApprove);
      var optional := IfGiven("slug", slug);
      optional := optional + IfGiven("custom_data", customData);
      optional := optional + IfGiven("comment", comment);
      optional := optional + IfGiven("callback_url", callbackUrl);
      JobFieldsShape(text, target, source, tier, slug, autoApprove, customData, comment,
                     callbackUrl);
      fields := fields + optional;
      theJob := JObj(fields);
    }
    params := map["job" := theJob];
  }

  /** `get_jobs` (mygengo.py:339-351): each filter sent iff given, numbers as decimal text. */
  method GetJobsParams(status: Option<string>, timestampAfter: Option<int>, count: Option<int>)
    returns (params: map<string, Json>)
    ensures params.Keys <= {"status", "timestamp_after", "count"}
    ensures AllStrings(params)
    ensures "status" in params <==> status.Some?
    ensures "timestamp_after" in params <==> timestampAfter.Some?
    ensures "count" in params <==> count.Some?
    ensures status.Some? ==> params["status"] == JStr(status.value)
    ensures timestampAfter.Some? ==>
              params["timestamp_after"].s == IntToDecimal(timestampAfter.value)
              && ParseInt(params["timestamp_after"].s) == timestampAfter.value
    ensures count.Some? ==>
              params["count"].s == IntToDecimal(count.value)
              && ParseInt(params["count"].s) == count.value
  {
    params := map[];
    if status.Some? {
      params := params["status" := JStr(status.value)];
    }
    if timestampAfter.Some? {
      IntRoundTrip(timestampAfter.value);
      params := params["timestamp_after" := JStr(IntToDecimal(timestampAfter.value))];
    }
    if count.Some? {
      IntRoundTrip(count.value);
      params := params["count" := JStr(IntToDecimal(count.value))];
    }
  }

  /** `get_job` (mygengo.py:288): `{'pre_mt': '1'}` only when a pre-translation is asked for. */
  function GetJobParams(preMt: bool): (params: Option<map<string, Json>>)
    ensures params.Some? <==> preMt
    ensures params.Some? ==> params.value.Keys == {"pre_mt"} && params.value["pre_mt"] == JStr("1")
  {
    if preMt then Some(map["pre_mt" := JStr("1")]) else None
  }

  /** `update_job` (mygengo.py:299-300): `action` plus every other keyword argument.
      Python refuses a second `action` keyword, so `otherParams` never holds one. */
  function UpdateJobParams(action: Json, otherParams: map<string, Json>): (params: map<string, Json>)
    requires "action" !in otherParams
    ensures params.Keys == otherParams.Keys + {"action"}
    ensures params["action"] == action
    ensures forall k :: k in otherParams ==> params[k] == otherParams[k]
  {
    map["action" := action] + otherParams
  }

  /** `get_language_pairs` (mygengo.py:370): `lc_src` only for a source that is given and
      non-empty, since an empty string is false in Python. */
  function LanguagePairsParams(source: Option<string>): (params: Option<map<string, Json>>)
    ensures params.Some? <==> source.Some? && source.value != ""
    ensures params.Some? ==> params.value.Keys == {"lc_src"} && params.value["lc_src"] == JStr(source.value)
  {
    if source.Some? && source.value != "" then Some(map["lc_src" := JStr(source.value)]) else None
  }
}
