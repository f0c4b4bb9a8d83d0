/**
 * The request/response glue every Lambda handler of the template goes through
 * (lib/lambda.ts): the shape of a successful and of a failed API Gateway proxy
 * response, the recursive formatting of payloads, and the parsing and trimming
 * of request bodies.
 *
 * What the handler returns or throws is a JSON value; `None` stands for
 * `undefined`. `JSON.stringify` is a parameter, and so is the key test of the
 * dynamo factory's `trimIndexedAttributes` (the keys it drops). The three
 * deprecation variables of the process environment are a parameter as well.
 */
module LambdaHandler {
  import opened Wrappers
  import opened Strings
  import opened Dict
  import opened Json

  // ---------------------------------------------------------------------------
  // Request bodies
  // ---------------------------------------------------------------------------

  /**
   * What the body formatter makes of one property value: strings are trimmed,
   * objects are formatted property by property, everything else (numbers,
   * booleans, null, arrays) is kept as it is.
   */
  function FormatChild(v: Json): Json {
    match v
    case JString(s) => JString(Trim(s))
    case JObject(fs) => JObject(Build(seq(|fs|, i requires 0 <= i < |fs| => (fs[i].0, FormatChild(fs[i].1)))))
    case _ => v
  }

  /** The assignments the formatting loop makes, one per entry, in entry order. */
  function FormattedEntries(fs: Dict<Json>): Dict<Json> {
    seq(|fs|, i requires 0 <= i < |fs| => (fs[i].0, FormatChild(fs[i].1)))
  }

  /** The object the formatting loop builds from the entries `fs`. */
  function FormatFields(fs: Dict<Json>): Dict<Json> {
    Build(FormattedEntries(fs))
  }

  /**
   * `getFormattedObject`: walks the entries of an object in order and assigns
   * each key its formatted value in a fresh object, descending into objects.
   */
  method GetFormattedObject(fs: Dict<Json>) returns (r: Dict<Json>)
    ensures r == FormatFields(fs)
    decreases JObject(fs)
  {
    var trimmed: Dict<Json> := [];
    var i := 0;
    while i < |fs|
      invariant 0 <= i <= |fs|
      invariant trimmed == Build(FormattedEntries(fs)[..i])
    {
      var key, val := fs[i].0, fs[i].1;
      var formatted: Json;
      if val.JString? {
        formatted := JString(Trim(val.s));
      } else {
        formatted := val;
      }
      if IsObject(val) {
        var inner := GetFormattedObject(val.fields);
        formatted := JObject(inner);
        FormatChildObject(val.fields);
      }
      assert formatted == FormatChild(fs[i].1);
      FormattedEntriesSnoc(fs, i, formatted);
      trimmed := Put(trimmed, key, formatted);
      i := i + 1;
    }
    assert FormattedEntries(fs)[..i] == FormattedEntries(fs);
    r := trimmed;
  }

  /** One more step of the formatting loop. */
  lemma FormattedEntriesSnoc(fs: Dict<Json>, i: nat, formatted: Json)
    requires i < |fs|
    requires formatted == FormatChild(fs[i].1)
    ensures Build(FormattedEntries(fs)[..i + 1]) == Put(Build(FormattedEntries(fs)[..i]), fs[i].0, formatted)
  {
    assert FormattedEntries(fs)[..i + 1] == FormattedEntries(fs)[..i] + [(fs[i].0, formatted)];
    BuildSnoc(FormattedEntries(fs)[..i], fs[i].0, formatted);
  }

  datatype ParseError = SyntaxError

  /**
   * The value `parseEventBody` returns: the body (an absent body reads as `{}`)
   * parsed, and formatted when it is an object; `parse` fails on text that is
   * not JSON, which `JSON.parse` reports by throwing.
   */
  function EventBody(body: Option<string>, parse: string -> Option<Json>): (r: Result<Json, ParseError>)
    ensures r.Err? <==> parse(body.GetOr("{}")).None?
    ensures r.Ok? ==> (r.value.JObject? <==> parse(body.GetOr("{}")).value.JObject?)
  {
    match parse(body.GetOr("{}"))
    case None => Err(SyntaxError)
    case Some(p) => Ok(if IsObject(p) then JObject(FormatFields(p.fields)) else p)
  }

  method ParseEventBody(body: Option<string>, parse: string -> Option<Json>) returns (r: Result<Json, ParseError>)
    ensures r == EventBody(body, parse)
  {
    var text := if body.Some? then body.value else "{}";
    var parsed := parse(text);
    if parsed.None? {
      return Err(SyntaxError);
    }
    var p := parsed.value;
    if IsObject(p) {
      var formatted := GetFormattedObject(p.fields);
      r := Ok(JObject(formatted));
    } else {
      r := Ok(p);
    }
  }

  /** Every string held directly by an object, at any depth of nested objects, has no surrounding whitespace. */
  predicate StringsTrimmed(v: Json) {
    match v
    case JString(s) => IsTrimmed(s)
    case JObject(fs) => forall i :: 0 <= i < |fs| ==> StringsTrimmed(fs[i].1)
    case _ => true
  }

  lemma FormatChildObject(fs: Dict<Json>)
    ensures FormatChild(JObject(fs)) == JObject(FormatFields(fs))
  {
  }

  /** Formatting keeps every key, and the value of a key is the formatted value of its last entry. */
  lemma FormatFieldsLookup(fs: Dict<Json>, k: string)
    ensures Keys(FormatFields(fs)) == Keys(fs)
    ensures Get(FormatFields(fs), k) == match LastWith(fs, k) case None => None case Some(v) => Some(FormatChild(v))
  {
    assert Keys(FormattedEntries(fs)) == Keys(fs) by {
      forall key | key in Keys(fs) ensures key in Keys(FormattedEntries(fs)) {
        var i :| 0 <= i < |fs| && fs[i].0 == key;
        assert FormattedEntries(fs)[i].0 == key;
      }
    }
    FormattedLastWith(fs, k);
  }

  lemma {:induction false} FormattedLastWith(fs: Dict<Json>, k: string)
    ensures LastWith(FormattedEntries(fs), k) == match LastWith(fs, k) case None => None case Some(v) => Some(FormatChild(v))
  {
    if fs != [] {
      var n := |fs| - 1;
      assert FormattedEntries(fs)[..n] == FormattedEntries(fs[..n]);
      FormattedLastWith(fs[..n], k);
    }
  }

  /** Formatting removes the surrounding whitespace of every string held by an object, at every depth. */
  lemma {:induction false} FormatTrims(v: Json)
    ensures StringsTrimmed(FormatChild(v))
    decreases v
  {
    match v
    case JObject(fs) =>
      var e := FormattedEntries(fs);
      var g := Build(e);
      assert FormatChild(v) == JObject(g);
      BuildEntries(e);
      forall i | 0 <= i < |g| ensures StringsTrimmed(g[i].1) {
        assert g[i] in e;
        var m :| 0 <= m < |e| && e[m] == g[i];
        FormatTrims(fs[m].1);
      }
    case _ =>
  }

  /** Formatting a formatted value changes nothing. */
  lemma {:induction false} FormatIdempotent(v: Json)
    ensures FormatChild(FormatChild(v)) == FormatChild(v)
    decreases v
  {
    match v
    case JString(s) =>
      TrimIdempotent(s);
    case JObject(fs) =>
      var e := FormattedEntries(fs);
      var g := Build(e);
      assert FormatChild(v) == JObject(g);
      BuildEntries(e);
      forall i | 0 <= i < |g| ensures FormattedEntries(g)[i] == g[i] {
        assert g[i] in e;
        var m :| 0 <= m < |e| && e[m] == g[i];
        FormatIdempotent(fs[m].1);
      }
      assert FormattedEntries(g) == g;
      BuildDistinct(g);
    case _ =>
  }

  /**
   * What `parseEventBody` promises: an absent body is the empty object, a body
   * that is not an object comes back exactly as parsed, and an object keeps its
   * keys, has every nested string trimmed and is left alone by a second pass.
   */
  lemma EventBodyRules(body: Option<string>, parse: string -> Option<Json>)
    ensures body.None? ==> EventBody(body, parse) == EventBody(Some("{}"), parse)
    ensures EventBody(body, parse).Err? <==> parse(body.GetOr("{}")).None?
    ensures EventBody(body, parse).Ok? && !IsObject(parse(body.GetOr("{}")).value) ==>
              EventBody(body, parse).value == parse(body.GetOr("{}")).value
    ensures EventBody(body, parse).Ok? && IsObject(parse(body.GetOr("{}")).value) ==>
              var p := parse(body.GetOr("{}")).value;
              var r := EventBody(body, parse).value;
              r.JObject? && Keys(r.fields) == Keys(p.fields) && StringsTrimmed(r) && FormatChild(r) == r
  {
    var parsed := parse(body.GetOr("{}"));
    if parsed.Some? && IsObject(parsed.value) {
      var p := parsed.value;
      FormatChildObject(p.fields);
      FormatFieldsLookup(p.fields, "");
      FormatTrims(p);
      FormatIdempotent(p);
    }
  }

  /**
   * A request without a body is handled as the empty object: with a `JSON.parse`
   * that reads `{}` as the empty object, the parsed body is the empty object.
   */
  lemma MissingBodyIsEmptyObject(parse: string -> Option<Json>)
    requires parse("{}") == Some(JObject([]))
    ensures EventBody(None, parse) == Ok(JObject([]))
  {
  }


  // ---------------------------------------------------------------------------
  // Payload formatting
  // ---------------------------------------------------------------------------

  /**
   * `recursivelyFormatObject`: arrays are formatted item by item; an object
   * loses the keys `indexed` names and its remaining values are formatted;
   * anything else is kept. (Sets and dates do not occur among JSON values.)
   */
  function RecursivelyFormat(v: Json, indexed: string -> bool): (r: Json)
    ensures r.JObject? <==> v.JObject?
    ensures r.JArray? <==> v.JArray?
    ensures v.JArray? ==> |r.items| == |v.items|
    ensures !v.JObject? && !v.JArray? ==> r == v
  {
    match v
    case JArray(items) => JArray(seq(|items|, i requires 0 <= i < |items| => RecursivelyFormat(items[i], indexed)))
    case JObject(fs) =>
      JObject(Build(Filter(seq(|fs|, i requires 0 <= i < |fs| => (fs[i].0, RecursivelyFormat(fs[i].1, indexed))), k => !indexed(k))))
    case _ => v
  }

  /** Distinct keys in every object at every depth: a value JavaScript can hold. */
  predicate WellFormed(v: Json) {
    match v
    case JArray(items) => forall i :: 0 <= i < |items| ==> WellFormed(items[i])
    case JObject(fs) => DistinctKeys(fs) && forall i :: 0 <= i < |fs| ==> WellFormed(fs[i].1)
    case _ => true
  }

  /** A formatted object has exactly the keys of the original that are not indexed keys. */
  lemma FormatDropsIndexedKeys(fs: Dict<Json>, indexed: string -> bool)
    ensures RecursivelyFormat(JObject(fs), indexed).JObject?
    ensures forall k :: k in Keys(RecursivelyFormat(JObject(fs), indexed).fields) <==> k in Keys(fs) && !indexed(k)
  {
    var e := seq(|fs|, i requires 0 <= i < |fs| => (fs[i].0, RecursivelyFormat(fs[i].1, indexed)));
    assert Keys(e) == Keys(fs) by {
      forall key | key in Keys(fs) ensures key in Keys(e) {
        var i :| 0 <= i < |fs| && fs[i].0 == key;
        assert e[i].0 == key;
      }
    }
  }

  /** With no indexed keys to drop, formatting leaves a well-formed value exactly as it was. */
  lemma {:induction false} FormatWithoutIndexedKeys(v: Json, indexed: string -> bool)
    requires forall k :: !indexed(k)
    requires WellFormed(v)
    ensures RecursivelyFormat(v, indexed) == v
    decreases v
  {
    match v
    case JArray(items) =>
      forall i | 0 <= i < |items| ensures RecursivelyFormat(items[i], indexed) == items[i] {
        FormatWithoutIndexedKeys(items[i], indexed);
      }
    case JObject(fs) =>
      var e := seq(|fs|, i requires 0 <= i < |fs| => (fs[i].0, RecursivelyFormat(fs[i].1, indexed)));
      forall i | 0 <= i < |fs| ensures e[i] == fs[i] {
        FormatWithoutIndexedKeys(fs[i].1, indexed);
      }
      assert e == fs;
      BuildDistinct(fs);
    case _ =>
  }

  // ---------------------------------------------------------------------------
  // Responses
  // ---------------------------------------------------------------------------

  /** The headers of every response. */
  const DefaultHeaders: Dict<Json> := [
    ("Content-Type", JString("application/json")),
    ("Access-Control-Allow-Origin", JString("*")),
    ("Access-Control-Allow-Headers", JString("*")),
    ("Access-Control-Allow-Credentials", JBool(true)),
    ("Access-Control-Allow-Methods", JString("GET,PUT,POST,DELETE,OPTIONS"))
  ]

  /** `isDeprecated`, `deprecationDate` and `updatedApiVersion` as the process environment holds them. */
  datatype DeprecationEnv = DeprecationEnv(isDeprecated: Option<string>, deprecationDate: Option<string>, updatedApiVersion: Option<string>)

  /** The variables read with their defaults `'false'`, `''` and `''`. */
  predicate Deprecated(env: DeprecationEnv) {
    env.isDeprecated.GetOr("false") == "true"
  }

  /** The deprecation notice carried by a body; `lead` precedes the version in its message. */
  function DeprecationFields(env: DeprecationEnv, lead: string): Dict<Json> {
    if Deprecated(env) then
      [("isDeprecated", JBool(true)),
       ("deprecationOn", JString(env.deprecationDate.GetOr(""))),
       ("deprecationMessage", JString(lead + env.updatedApiVersion.GetOr("") + " instead."))]
    else []
  }

  const SuccessLead := "This API is deprecated. Use v"
  const ErrorLead := "This API is deprecated. Please use v"

  /** The properties of a handler's result that steer the response instead of being returned to the caller. */
  const ControlFields: seq<string> := ["success", "customBody", "customHeaders", "multiValueHeaders"]

  /** The result after its control properties are deleted; deleting from a value that is not an object changes nothing. */
  function StripControlFields(response: Json): (r: Json)
    ensures r.JObject? <==> response.JObject?
    ensures r.JObject? ==> Keys(r.fields) == Keys(response.fields) - {"success", "customBody", "customHeaders", "multiValueHeaders"}
    ensures !response.JObject? ==> r == response
  {
    match response
    case JObject(fs) => JObject(Remove(Remove(Remove(Remove(fs, "success"), "customBody"), "customHeaders"), "multiValueHeaders"))
    case _ => response
  }

  /** `Object.keys(v).length > 0 || Array.isArray(v)`. */
  predicate HasPayload(v: Json) {
    match v
    case JObject(fs) => |fs| > 0
    case JArray(_) => true
    case JString(s) => |s| > 0
    case _ => false
  }

  /** The own enumerable properties `...v` copies: an object's entries, the indices of an array or a string. */
  function SpreadEntries(v: Json): (r: Dict<Json>)
    ensures v.JObject? ==> r == v.fields
    ensures !v.JObject? && !v.JArray? && !v.JString? ==> r == []
  {
    match v
    case JObject(fs) => fs
    case JArray(items) => seq(|items|, i requires 0 <= i < |items| => (NatToString(i), items[i]))
    case JString(s) => seq(|s|, i requires 0 <= i < |s| => (NatToString(i), JString([s[i]])))
    case _ => []
  }

  /** The body of a successful response, before it is serialised. */
  function SuccessBody(response: Json, env: DeprecationEnv, indexed: string -> bool): Dict<Json> {
    var stripped := StripControlFields(response);
    [("success", Coalesce(Prop(response, "success"), JBool(true)))]
      + DeprecationFields(env, SuccessLead)
      + (if HasPayload(stripped) then [("payload", RecursivelyFormat(stripped, indexed))] else [])
  }

  /** The body of an error response, before it is serialised; `e` is the thrown value and is not null. */
  function ErrorBody(e: Json, env: DeprecationEnv): Dict<Json> {
    [("reason", Coalesce(Prop(e, "name"), Coalesce(Prop(e, "reason"), JString("Unknown")))),
     ("error", Coalesce(OptionalProp(Prop(e, "Error"), "Message"),
               Coalesce(Prop(e, "message"),
               Coalesce(Prop(e, "error"),
               Coalesce(Prop(e, "validationErrors"), JString("Unknown error")))))),
     ("success", JBool(false))]
      + DeprecationFields(env, ErrorLead)
  }

  /** How the wrapped handler settled: the value it resolved to, or the value it threw. */
  datatype HandlerOutcome = Returned(response: Option<Json>) | Threw(error: Option<Json>)

  /** An API Gateway proxy result; an error response has no multi-value headers. */
  datatype ProxyResult = ProxyResult(statusCode: Json, headers: Dict<Json>, multiValueHeaders: Option<Json>, body: Json)

  /** Reading a property of a thrown `null` or `undefined` inside the catch block rejects the wrapper's promise. */
  datatype Rejection = PropertyOfNullish

  /** `handlerWrapper`: the proxy result for what the handler did. */
  function HandlerWrapper(outcome: HandlerOutcome, env: DeprecationEnv, stringify: Json -> string, indexed: string -> bool): (r: Result<ProxyResult, Rejection>)
    ensures outcome.Returned? ==> r.Ok? && r.value.statusCode == JNumber(200) && r.value.multiValueHeaders.Some?
    ensures outcome.Returned? ==>
              var response := Coalesce(outcome.response, JObject([]));
              r.value.multiValueHeaders == Some(Coalesce(Prop(response, "multiValueHeaders"), JObject([])))
    ensures outcome.Threw? ==> (r.Err? <==> outcome.error.None? || outcome.error == Some(JNull))
    ensures outcome.Threw? && r.Ok? ==> r.value.headers == DefaultHeaders && r.value.multiValueHeaders.None?
  {
    match outcome
    case Returned(v) =>
      var response := Coalesce(v, JObject([]));
      var customBody := Prop(response, "customBody");
      var customHeaders := Coalesce(Prop(response, "customHeaders"), JObject([]));
      var multiValueHeaders := Coalesce(Prop(response, "multiValueHeaders"), JObject([]));
      Ok(ProxyResult(
        JNumber(200),
        Spread(DefaultHeaders, SpreadEntries(customHeaders)),
        Some(multiValueHeaders),
        Coalesce(customBody, JString(stringify(JObject(SuccessBody(response, env, indexed)))))))
    case Threw(e) =>
      if e.None? || e.value == JNull then Err(PropertyOfNullish)
      else
        Ok(ProxyResult(
          Coalesce(Prop(e.value, "statusCode"), Coalesce(OptionalProp(Prop(e.value, "$metadata"), "httpStatusCode"), JNumber(500))),
          DefaultHeaders,
          None,
          JString(stringify(JObject(ErrorBody(e.value, env))))))
  }

  /**
   * A handler that resolves always yields status 200; its custom headers are
   * added to the default ones and override them; its `customBody`, when not
   * nullish, is the body verbatim, and otherwise the body is the serialised
   * success body.
   */
  lemma SuccessResponse(v: Option<Json>, env: DeprecationEnv, stringify: Json -> string, indexed: string -> bool)
    ensures var r := HandlerWrapper(Returned(v), env, stringify, indexed);
            var response := Coalesce(v, JObject([]));
            var custom := SpreadEntries(Coalesce(Prop(response, "customHeaders"), JObject([])));
            r.Ok? && r.value.statusCode == JNumber(200)
            && Keys(r.value.headers) == Keys(DefaultHeaders) + Keys(custom)
            && (forall k :: k in Keys(custom) ==> Get(r.value.headers, k) == LastWith(custom, k))
            && (forall k :: k !in Keys(custom) ==> Get(r.value.headers, k) == Get(DefaultHeaders, k))
            && r.value.multiValueHeaders == Some(Coalesce(Prop(response, "multiValueHeaders"), JObject([])))
            && (Prop(response, "customBody").Some? && Prop(response, "customBody").value != JNull ==>
                  r.value.body == Prop(response, "customBody").value)
            && (Prop(response, "customBody").None? || Prop(response, "customBody").value == JNull ==>
                  r.value.body == JString(stringify(JObject(SuccessBody(response, env, indexed)))))
  {
    DefaultHeadersDistinct();
  }

  lemma DefaultHeadersDistinct()
    ensures DistinctKeys(DefaultHeaders)
    ensures forall k :: LastWith(DefaultHeaders, k) == Get(DefaultHeaders, k)
  {
    forall k ensures LastWith(DefaultHeaders, k) == Get(DefaultHeaders, k) {
      LastWithDistinct(DefaultHeaders, k);
    }
  }

  /**
   * The success body: `success` comes first and is the handler's own `success`
   * unless that is nullish, then `true`; the deprecation notice is present
   * exactly when `isDeprecated` is `'true'`; and `payload` is present exactly
   * when something is left of the result once its control properties are
   * deleted.
   */
  lemma SuccessBodyShape(response: Json, env: DeprecationEnv, indexed: string -> bool)
    ensures var b := SuccessBody(response, env, indexed);
            var stripped := StripControlFields(response);
            b[0] == ("success", Coalesce(Prop(response, "success"), JBool(true)))
            && ("isDeprecated" in Keys(b) <==> env.isDeprecated == Some("true"))
            && ("payload" in Keys(b) <==> HasPayload(stripped))
            && (HasPayload(stripped) ==> b[|b| - 1] == ("payload", RecursivelyFormat(stripped, indexed)))
  {
    var stripped := StripControlFields(response);
    var head := [("success", Coalesce(Prop(response, "success"), JBool(true)))];
    var dep := DeprecationFields(env, SuccessLead);
    var tail := if HasPayload(stripped) then [("payload", RecursivelyFormat(stripped, indexed))] else [];
    assert SuccessBody(response, env, indexed) == head + dep + tail;
    KeysConcat(head + dep, tail);
    KeysConcat(head, dep);
    KeysSingle("success", Coalesce(Prop(response, "success"), JBool(true)));
    DeprecationKeys(env, SuccessLead);
    if HasPayload(stripped) {
      KeysSingle("payload", RecursivelyFormat(stripped, indexed));
    }
  }

  lemma DeprecationKeys(env: DeprecationEnv, lead: string)
    ensures Keys(DeprecationFields(env, lead)) == if Deprecated(env) then {"isDeprecated", "deprecationOn", "deprecationMessage"} else {}
  {
    var d := DeprecationFields(env, lead);
    if Deprecated(env) {
      assert d[0].0 == "isDeprecated" && d[1].0 == "deprecationOn" && d[2].0 == "deprecationMessage";
    }
  }

  /** An object payload carries none of the control properties, and none of the indexed keys. */
  lemma PayloadWithoutControlFields(fs: Dict<Json>, indexed: string -> bool)
    ensures var p := RecursivelyFormat(StripControlFields(JObject(fs)), indexed);
            p.JObject?
            && (forall c :: c in ControlFields ==> c !in Keys(p.fields))
            && (forall k :: k in Keys(p.fields) ==> !indexed(k))
  {
    FormatDropsIndexedKeys(StripControlFields(JObject(fs)).fields, indexed);
  }

  /**
   * A thrown value other than null or undefined yields a response with the
   * default headers, no multi-value headers and the serialised error body; its
   * status code is the error's `statusCode`, else the SDK's recorded HTTP
   * status, else 500. A thrown null or undefined makes the wrapper reject.
   */
  lemma ErrorResponse(e: Option<Json>, env: DeprecationEnv, stringify: Json -> string, indexed: string -> bool)
    ensures var r := HandlerWrapper(Threw(e), env, stringify, indexed);
            (r.Err? <==> e.None? || e.value == JNull)
            && (r.Ok? ==>
                  r.value.headers == DefaultHeaders && r.value.multiValueHeaders.None?
                  && r.value.body == JString(stringify(JObject(ErrorBody(e.value, env))))
                  && (Prop(e.value, "statusCode").Some? && Prop(e.value, "statusCode").value != JNull ==>
                        r.value.statusCode == Prop(e.value, "statusCode").value)
                  && (Prop(e.value, "statusCode").None? || Prop(e.value, "statusCode") == Some(JNull) ==>
                        var sdk := OptionalProp(Prop(e.value, "$metadata"), "httpStatusCode");
                        && (sdk.Some? && sdk.value != JNull ==> r.value.statusCode == sdk.value)
                        && (sdk.None? || sdk == Some(JNull) ==> r.value.statusCode == JNumber(500)))
                  && (Prop(e.value, "statusCode").None? && Prop(e.value, "$metadata").None? ==>
                        r.value.statusCode == JNumber(500)))
  {
  }

  /**
   * The error body always says `success: false`; its reason is the error's
   * `name`, else its `reason`, else `'Unknown'`; its error is the SDK's
   * `Error.Message`, else `message`, else `error`, else `validationErrors`,
   * else `'Unknown error'`. A thrown value that is not an
   * object (a string, a number) has none of the looked-up properties, so it
   * gets reason `'Unknown'`, error `'Unknown error'` and status 500.
   */
  lemma ErrorBodyDefaults(e: Json, env: DeprecationEnv, stringify: Json -> string, indexed: string -> bool)
    requires e != JNull
    ensures ErrorBody(e, env)[2] == ("success", JBool(false))
    ensures var name := Prop(e, "name");
            var reason := Prop(e, "reason");
            && (name.Some? && name.value != JNull ==> ErrorBody(e, env)[0] == ("reason", name.value))
            && (name.None? || name == Some(JNull) ==>
                  && (reason.Some? && reason.value != JNull ==> ErrorBody(e, env)[0] == ("reason", reason.value))
                  && (reason.None? || reason == Some(JNull) ==> ErrorBody(e, env)[0] == ("reason", JString("Unknown"))))
    ensures var sdk := OptionalProp(Prop(e, "Error"), "Message");
            var message := Prop(e, "message");
            var error := Prop(e, "error");
            var validation := Prop(e, "validationErrors");
            var field := ErrorBody(e, env)[1];
            && (!Nullish(sdk) ==> field == ("error", sdk.value))
            && (Nullish(sdk) && !Nullish(message) ==> field == ("error", message.value))
            && (Nullish(sdk) && Nullish(message) && !Nullish(error) ==> field == ("error", error.value))
            && (Nullish(sdk) && Nullish(message) && Nullish(error) && !Nullish(validation) ==> field == ("error", validation.value))
            && (Nullish(sdk) && Nullish(message) && Nullish(error) && Nullish(validation) ==> field == ("error", JString("Unknown error")))
    ensures !e.JObject? ==>
              ErrorBody(e, env)[0] == ("reason", JString("Unknown"))
              && ErrorBody(e, env)[1] == ("error", JString("Unknown error"))
              && HandlerWrapper(Threw(Some(e)), env, stringify, indexed).value.statusCode == JNumber(500)
    ensures ("isDeprecated" in Keys(ErrorBody(e, env))) <==> env.isDeprecated == Some("true")
  {
    var b := ErrorBody(e, env);
    var head := b[..3];
    var dep := DeprecationFields(env, ErrorLead);
    assert b == head + dep;
    KeysConcat(head, dep);
    assert Keys(head) == {"reason", "error", "success"} by {
      assert head[0].0 == "reason" && head[1].0 == "error" && head[2].0 == "success";
    }
    if Deprecated(env) {
      assert dep[0].0 == "isDeprecated";
    }
  }

  /** A handler that resolves to nothing gets `{success: true}` (plus any deprecation notice) as its body. */
  lemma EmptyResult(env: DeprecationEnv, stringify: Json -> string, indexed: string -> bool)
    ensures HandlerWrapper(Returned(None), env, stringify, indexed).value.body
            == JString(stringify(JObject([("success", JBool(true))] + DeprecationFields(env, SuccessLead))))
  {
    var response := JObject([]);
    assert SuccessBody(response, env, indexed) == [("success", JBool(true))] + DeprecationFields(env, SuccessLead) by {
      assert Prop(response, "success") == None;
      assert StripControlFields(response) == response;
    }
    SuccessResponse(None, env, stringify, indexed);
  }
}
