/**
 * The payment controller: the payment-request payload sent to the payment
 * provider, the error reply when that request fails, and the webhook
 * acknowledgement.
 */
module Payment {
  import opened Wrappers
  import opened Lists
  import opened Text

  /** A JSON value as it arrives in a request body or a provider reply. */
  datatype Json =
    | JNull
    | JBool(b: bool)
    | JNum(n: real)
    | JStr(s: string)
    | JArr(items: seq<Json>)
    | JObj(fields: seq<(string, Json)>)

  /** JavaScript truthiness of a JSON value (no NaN among the numbers). */
  predicate Truthy(v: Json) {
    match v
    case JNull => false
    case JBool(b) => b
    case JNum(n) => n != 0.0
    case JStr(s) => s != ""
    case _ => true
  }

  /** A request body: a key that is absent reads as `undefined`. */
  type Body = map<string, Json>

  /** An object as an ordered list of (key, value) entries. */
  type Payload = seq<(string, Json)>

  /** The payload's keys, in the order the payload object lists them. */
  const PayloadKeys: seq<string> := [
    "amount", "currency", "email", "name", "purpose", "reference_number",
    "redirect_url", "webhook", "payment_methods", "phone", "send_email",
    "send_sms", "allow_repeated_payments"
  ]

  /** The destructuring defaults, which apply only when the field is undefined. */
  function Default(key: string): (d: Option<Json>)
    ensures d.Some? <==> key in {"payment_methods", "send_email", "send_sms", "allow_repeated_payments"}
  {
    if key == "payment_methods" then Some(JArr([JStr("paynow_online")]))
    else if key == "send_email" || key == "send_sms" || key == "allow_repeated_payments" then Some(JBool(false))
    else None
  }

  /** The value a payload key takes: the body's value when defined, else its default. */
  function Field(body: Body, key: string): Option<Json> {
    if key in body then Some(body[key]) else Default(key)
  }


  /** The entries of `keys` whose value is defined, in order; undefined ones are deleted. */
  function Assemble(body: Body, keys: seq<string>): (p: Payload)
    ensures forall i :: 0 <= i < |p| ==> p[i].0 in keys && Field(body, p[i].0) == Some(p[i].1)
    ensures forall k :: k in keys && Field(body, k).Some? ==> (k, Field(body, k).value) in p
    ensures |p| <= |keys|
  {
    if |keys| == 0 then []
    else
      var rest := Assemble(body, keys[1..]);
      match Field(body, keys[0])
      case Some(v) => [(keys[0], v)] + rest
      case None => rest
  }

  /** `createPayment`'s payload for a request body. */
  function BuildPayload(body: Body): (p: Payload)
    ensures forall i :: 0 <= i < |p| ==> p[i].0 in PayloadKeys
  {
    Assemble(body, PayloadKeys)
  }

  /** The payload lists its keys in the declared order. */
  lemma {:induction false} AssembleKeysInOrder(body: Body, keys: seq<string>)
    ensures IsSubsequence(Keys(Assemble(body, keys)), keys)
    decreases |keys|
  {
    if |keys| > 0 {
      AssembleKeysInOrder(body, keys[1..]);
      var rest := Assemble(body, keys[1..]);
      match Field(body, keys[0])
      case Some(v) =>
        var ks := Keys([(keys[0], v)] + rest);
        assert ks == [keys[0]] + Keys(rest);
        assert ks[0] == keys[0] && ks[1..] == Keys(rest);
      case None =>
        SubsequenceOfTail(Keys(rest), keys);
    }
  }

  /** The value a payload gives a key: the first entry with that key. */
  function Lookup(p: Payload, key: string): (r: Option<Json>)
    ensures r.None? <==> forall i :: 0 <= i < |p| ==> p[i].0 != key
    ensures r.Some? ==> (key, r.value) in p
  {
    if |p| == 0 then None
    else if p[0].0 == key then Some(p[0].1)
    else Lookup(p[1..], key)
  }

  lemma {:induction false} AssembleLookup(body: Body, keys: seq<string>, key: string)
    ensures Lookup(Assemble(body, keys), key) == if key in keys then Field(body, key) else None
    decreases |keys|
  {
    if |keys| > 0 {
      AssembleLookup(body, keys[1..], key);
      var rest := Assemble(body, keys[1..]);
      match Field(body, keys[0])
      case Some(v) =>
        assert Assemble(body, keys) == [(keys[0], v)] + rest;
        if keys[0] != key {
          assert ([(keys[0], v)] + rest)[1..] == rest;
        }
      case None =>
    }
  }

  /**
   * The payload, read key by key: a defined body value passes through
   * unchanged (null, false and "" included), an undefined field takes its
   * default or is left out, and nothing outside the thirteen keys appears.
   */
  lemma PayloadFields(body: Body, key: string)
    ensures key in PayloadKeys && key in body ==> Lookup(BuildPayload(body), key) == Some(body[key])
    ensures key in PayloadKeys && key !in body ==> Lookup(BuildPayload(body), key) == Default(key)
    ensures key !in PayloadKeys ==> Lookup(BuildPayload(body), key) == None
  {
    AssembleLookup(body, PayloadKeys, key);
  }

  /** The four defaulted keys are always sent. */
  lemma DefaultedKeysPresent(body: Body)
    ensures Lookup(BuildPayload(body), "payment_methods").Some?
    ensures Lookup(BuildPayload(body), "send_email").Some?
    ensures Lookup(BuildPayload(body), "send_sms").Some?
    ensures Lookup(BuildPayload(body), "allow_repeated_payments").Some?
  {
    PayloadFields(body, "payment_methods");
    PayloadFields(body, "send_email");
    PayloadFields(body, "send_sms");
    PayloadFields(body, "allow_repeated_payments");
  }

  /** Body fields outside the thirteen keys have no influence on the payload. */
  lemma {:induction false} ExtraFieldsIgnored(body: Body, key: string, v: Json, keys: seq<string>)
    requires key !in keys
    ensures Assemble(body[key := v], keys) == Assemble(body, keys)
    decreases |keys|
  {
    if |keys| > 0 {
      assert Field(body[key := v], keys[0]) == Field(body, keys[0]);
      ExtraFieldsIgnored(body, key, v, keys[1..]);
    }
  }

  lemma ExtraFieldIgnored(body: Body, key: string, v: Json)
    requires key !in PayloadKeys
    ensures BuildPayload(body[key := v]) == BuildPayload(body)
  {
    ExtraFieldsIgnored(body, key, v, PayloadKeys);
  }

  /** The body of an HTTP reply: JSON or plain text. */
  datatype ReplyBody = JsonBody(json: Json) | TextBody(text: string)

  datatype Reply = Reply(status: int, body: ReplyBody)

  /** What the provider call produced: its reply data, or a thrown error that may
      carry the provider's response. */
  datatype ProviderResponse = ProviderResponse(status: Option<int>, data: Option<Json>)
  datatype PostOutcome =
    | Posted(data: Json)
    | Threw(response: Option<ProviderResponse>, message: string)

  /** `error.response?.data || error.message` */
  function ErrorValue(response: Option<ProviderResponse>, message: string): (v: Json)
    ensures response.Some? && response.value.data.Some? && Truthy(response.value.data.value)
            ==> v == response.value.data.value
    ensures !(response.Some? && response.value.data.Some? && Truthy(response.value.data.value))
            ==> v == JStr(message)
  {
    if response.Some? && response.value.data.Some? && Truthy(response.value.data.value)
    then response.value.data.value
    else JStr(message)
  }

  /** `HTTP <status>` when the response carries a (non-zero) status, else 'Network Error'. */
  function ErrorDetails(response: Option<ProviderResponse>): (d: string)
    ensures response.Some? && response.value.status.Some? && response.value.status.value != 0
            ==> d == "HTTP " + IntToString(response.value.status.value)
    ensures !(response.Some? && response.value.status.Some? && response.value.status.value != 0)
            ==> d == "Network Error"
  {
    if response.Some? && response.value.status.Some? && response.value.status.value != 0
    then "HTTP " + IntToString(response.value.status.value)
    else "Network Error"
  }

  /** `createPayment`: the provider's data on success, a 500 with error and details otherwise. */
  function CreatePayment(outcome: PostOutcome): (r: Reply)
    ensures outcome.Posted? ==> r == Reply(200, JsonBody(outcome.data))
    ensures outcome.Threw? ==> r.status == 500 && r.body.JsonBody? && r.body.json.JObj?
    ensures outcome.Threw? ==>
              r.body.json.fields == [("error", ErrorValue(outcome.response, outcome.message)),
                                     ("details", JStr(ErrorDetails(outcome.response)))]
  {
    match outcome
    case Posted(data) => Reply(200, JsonBody(data))
    case Threw(response, message) =>
      Reply(500, JsonBody(JObj([("error", ErrorValue(response, message)),
                                ("details", JStr(ErrorDetails(response)))])))
  }

  /** The details of a failed request name its HTTP status exactly: the status can
      be read back from the reply. */
  lemma ErrorStatusRecoverable(status: int, data: Option<Json>, message: string)
    requires status != 0
    ensures var r := CreatePayment(Threw(Some(ProviderResponse(Some(status), data)), message));
            var d := r.body.json.fields[1].1.s;
            |d| > 5 && d[..5] == "HTTP " && ParseInt(d[5..]) == Some(status)
  {
    var d := "HTTP " + IntToString(status);
    assert d[5..] == IntToString(status);
    IntRoundTrip(status);
  }

  /** A failure without a provider response always reports a network error carrying
      the message. */
  lemma NetworkFailureReply(message: string)
    ensures CreatePayment(Threw(None, message))
            == Reply(500, JsonBody(JObj([("error", JStr(message)), ("details", JStr("Network Error"))])))
  {
  }

  /** `handleWebhook`: every event is acknowledged the same way. */
  function HandleWebhook(event: Json): (r: Reply)
    ensures r.status == 200 && r.body == TextBody("OK")
  {
    Reply(200, TextBody("OK"))
  }
}
