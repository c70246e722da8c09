/** The `predict-emissions` server function as a pure function from the
    request, the configured credential, the gateway's reply and the JSON
    parser to the HTTP response it sends.

    The gateway call is not performed here: its outcome is an argument, and
    the statement that a path makes no gateway call is the statement that the
    response on that path does not depend on that argument. */
module PredictEmissions {
  import opened Wrappers
  import opened Strings

  // ------------------------------------------------------------ data model

  /** The request body after `req.json()`; an absent field and a JSON `null`
      are both `None`. */
  datatype PredictionRequest = PredictionRequest(
    energyConsumption: Option<real>,
    fuelUsage: Option<real>,
    productionVolume: Option<real>,
    wasteGenerated: Option<real>,
    waterUsage: Option<real>,
    industryType: Option<string>)

  /** A JSON value as `JSON.parse` returns it. */
  datatype Json =
    | JNull
    | JBool(b: bool)
    | JNumber(n: real)
    | JString(s: string)
    | JArray(items: seq<Json>)
    | JObject(members: seq<(string, Json)>)

  /** The object the fallback path builds. */
  datatype Prediction = Prediction(predictedCo2: real, confidence: string, suggestions: seq<string>)

  /** What the response carries: nothing (pre-flight), `{ error }`, the
      parsed gateway answer as it was parsed, or the fallback estimate. */
  datatype Body =
    | NoBody
    | ErrorBody(error: string)
    | ParsedBody(value: Json)
    | FallbackBody(prediction: Prediction)

  /** The CORS headers alone, or the CORS headers with `Content-Type: application/json`. */
  datatype Headers = Cors | CorsJson

  datatype Response = Response(status: nat, headers: Headers, body: Body)

  /** The outcome of the gateway call: a reply with its HTTP status and the
      first choice's message content as the reply's JSON holds it (`None` when
      the path is missing), or an exception (the fetch rejected, or the reply
      body was not JSON) with its message. */
  datatype Upstream = Replied(status: nat, content: Option<Json>) | Threw(message: string)

  const InvalidInputMessage := "Energy consumption and fuel usage are required"
  const MissingKeyMessage := "LOVABLE_API_KEY is not configured"
  const RateLimitMessage := "Rate limits exceeded, please try again later."
  const PaymentMessage := "Payment required, please add funds to your workspace."
  const NoContentMessage := "No content in AI response"

  function GatewayErrorMessage(status: nat): string
  {
    "AI gateway error: " + NatToString(status)
  }

  /** `response.ok`. */
  predicate IsOk(status: nat) { 200 <= status <= 299 }

  /** JavaScript truthiness of an optional number read from JSON (JSON has no NaN). */
  predicate IsTruthy(x: Option<real>) { x.Some? && x.value != 0.0 }

  /** JavaScript truthiness of an optional string. */
  predicate IsNonEmpty(s: Option<string>) { s.Some? && s.value != "" }

  /** JavaScript truthiness of an optional JSON value: `undefined`, `null`,
      `false`, `0` and `""` are falsy; arrays and objects are truthy. */
  predicate IsTruthyJson(v: Option<Json>)
  {
    v.Some? &&
    match v.value
      case JNull => false
      case JBool(b) => b
      case JNumber(n) => n != 0.0
      case JString(t) => t != ""
      case JArray(_) => true
      case JObject(_) => true
  }

  function JsonError(status: nat, message: string): Response
  {
    Response(status, CorsJson, ErrorBody(message))
  }

  // -------------------------------------------------------- fence stripping

  /** `content.replace(/```json\n?|\n?```/g, '')`: scanning left to right, the
      first alternative that matches at a position is removed, with its
      optional newline taken whenever it is there. */
  function StripFences(s: string): (r: string)
    ensures |r| <= |s|
    decreases |s|
  {
    if StartsWith(s, "```json\n") then StripFences(s[8..])
    else if StartsWith(s, "```json") then StripFences(s[7..])
    else if StartsWith(s, "\n```") then StripFences(s[4..])
    else if StartsWith(s, "```") then StripFences(s[3..])
    else if s == [] then []
    else [s[0]] + StripFences(s[1..])
  }

  /** The text handed to `JSON.parse`. */
  function Clean(content: string): (r: string)
    ensures |r| <= |content|
    ensures r == [] || (!IsWhitespace(r[0]) && !IsWhitespace(r[|r| - 1]))
  {
    Trim(StripFences(content))
  }

  predicate NoBacktick(s: string) { forall k :: 0 <= k < |s| ==> s[k] != '`' }

  lemma {:induction false} StripFencesNoBacktick(p: string)
    requires NoBacktick(p)
    ensures StripFences(p) == p
  {
    if p != [] {
      assert p[0] != '`' && (|p| == 1 || p[1] != '`');
      StripFencesStep(p);
      StripFencesNoBacktick(p[1..]);
      assert [p[0]] + p[1..] == p;
    }
  }

  /** Where neither of the first two characters is a backtick, no fence starts. */
  lemma StripFencesStep(s: string)
    requires s != [] && s[0] != '`' && (|s| == 1 || s[1] != '`')
    ensures StripFences(s) == [s[0]] + StripFences(s[1..])
  {
    assert !StartsWith(s, "\n```") by {
      if |s| >= 4 { assert s[..4][1] == s[1]; }
    }
  }

  lemma {:induction false} StripClosingFence(p: string)
    requires NoBacktick(p)
    ensures StripFences(p + "\n```") == p
  {
    var s := p + "\n```";
    if p == [] {
      assert s == "\n```";
      assert StartsWith(s, "\n```");
      assert StripFences(s) == StripFences(s[4..]);
    } else {
      assert s[1] == if |p| > 1 then p[1] else '\n';
      StripFencesStep(s);
      assert s[1..] == p[1..] + "\n```";
      StripClosingFence(p[1..]);
      assert [p[0]] + p[1..] == p;
    }
  }

  /** A reply wrapped in a ```` ```json ```` fence cleans to the same text as the bare reply. */
  lemma FencedPayloadCleansLikeBare(p: string)
    requires NoBacktick(p)
    ensures Clean("```json\n" + p + "\n```") == Trim(p)
    ensures Clean(p) == Trim(p)
  {
    var s := "```json\n" + p + "\n```";
    assert StartsWith(s, "```json\n");
    assert s[8..] == p + "\n```";
    StripClosingFence(p);
    StripFencesNoBacktick(p);
  }

  // ------------------------------------------------------------- fallback

  const EnergyFactor: real := 0.0005   // tons of CO2 per kWh
  const FuelFactor: real := 0.00268    // tons of CO2 per litre
  const WasteFactor: real := 0.0005    // tons of CO2 per kg

  const FallbackSuggestions: seq<string> := [
    "Transition to renewable energy sources to reduce electricity-related emissions",
    "Implement fuel efficiency programs and consider electric vehicle alternatives",
    "Develop a comprehensive waste reduction and recycling program"
  ]

  /** `x` is a whole number of hundredths. */
  predicate IsHundredths(x: real) { (x * 100.0).Floor as real == x * 100.0 }

  /** `Math.round(x * 100) / 100`; `Math.round` rounds halves upwards. */
  function RoundHundredths(x: real): (r: real)
    ensures IsHundredths(r)
    ensures x - 0.005 < r <= x + 0.005
    ensures x >= 0.0 ==> r >= 0.0
  {
    var n := (x * 100.0 + 0.5).Floor;
    assert (n as real / 100.0) * 100.0 == n as real;
    n as real / 100.0
  }

  /** The rounding is to the one multiple of 0.01 in `(x - 0.005, x + 0.005]`. */
  lemma RoundHundredthsUnique(x: real, y: real)
    requires IsHundredths(y) && x - 0.005 < y <= x + 0.005
    ensures y == RoundHundredths(x)
  {
    var r := RoundHundredths(x);
    var a, b := (y * 100.0).Floor, (r * 100.0).Floor;
    assert a as real - b as real < 1.0 && b as real - a as real < 1.0;
    assert a == b;
  }

  /** The unrounded fallback total: energy, fuel and waste (0 when absent)
      times their emission factors. */
  function FallbackEmission(energy: real, fuel: real, waste: Option<real>): (e: real)
    ensures energy >= 0.0 && fuel >= 0.0 && waste.GetOr(0.0) >= 0.0 ==> e >= 0.0
    ensures waste.None? || waste == Some(0.0) ==> e == energy * EnergyFactor + fuel * FuelFactor
  {
    energy * EnergyFactor + fuel * FuelFactor + waste.GetOr(0.0) * WasteFactor
  }

  function FallbackPrediction(energy: real, fuel: real, waste: Option<real>): (p: Prediction)
    ensures p.confidence == "Medium" && p.suggestions == FallbackSuggestions && |p.suggestions| == 3
    ensures IsHundredths(p.predictedCo2)
    ensures FallbackEmission(energy, fuel, waste) - 0.005 < p.predictedCo2 <= FallbackEmission(energy, fuel, waste) + 0.005
    ensures energy >= 0.0 && fuel >= 0.0 && (waste.Some? ==> waste.value >= 0.0) ==> p.predictedCo2 >= 0.0
  {
    Prediction(RoundHundredths(FallbackEmission(energy, fuel, waste)), "Medium", FallbackSuggestions)
  }

  lemma FallbackExample()
    ensures FallbackPrediction(15000.0, 5000.0, None).predictedCo2 == 20.9
  {
    assert FallbackEmission(15000.0, 5000.0, None) == 20.9;
    RoundHundredthsUnique(20.9, 20.9);
  }

  // -------------------------------------------------------------- handler

  /** The `serve` callback. `verb` is the request method; `apiKey` is `Deno.env.get("LOVABLE_API_KEY")`;
      `body` is the outcome of `req.json()`; `upstream` the outcome of the
      gateway call; `jsonParse` stands for `JSON.parse`, `None` when it throws. */
  function Handle(verb: string, body: Result<PredictionRequest, string>, apiKey: Option<string>,
                  upstream: Upstream, jsonParse: string -> Option<Json>): (r: Response)
    ensures r.status in {200, 400, 402, 429, 500}
    ensures r.body.NoBody? <==> verb == "OPTIONS"
    ensures r.headers == CorsJson <==> verb != "OPTIONS"
    ensures r.body.ParsedBody? || r.body.FallbackBody? ==>
      && r.status == 200
      && upstream.Replied? && IsOk(upstream.status)
      && IsTruthyJson(upstream.content)
      && (r.body.FallbackBody? <==>
            !upstream.content.value.JString? || jsonParse(Clean(upstream.content.value.s)).None?)
  {
    if verb == "OPTIONS" then Response(200, Cors, NoBody)
    else match body
      case Failure(message) => JsonError(500, message)
      case Success(req) =>
        if !IsTruthy(req.energyConsumption) || !IsTruthy(req.fuelUsage) then
          JsonError(400, InvalidInputMessage)
        else if !IsNonEmpty(apiKey) then
          JsonError(500, MissingKeyMessage)
        else match upstream
          case Threw(message) => JsonError(500, message)
          case Replied(status, content) =>
            if !IsOk(status) then
              if status == 429 then JsonError(429, RateLimitMessage)
              else if status == 402 then JsonError(402, PaymentMessage)
              else JsonError(500, GatewayErrorMessage(status))
            else if !IsTruthyJson(content) then
              JsonError(500, NoContentMessage)
            else
              // `content.replace` throws on anything but a string, and that
              // throw is caught like a parse failure
              var parsed := if content.value.JString? then jsonParse(Clean(content.value.s)) else None;
              match parsed
                case Some(value) => Response(200, CorsJson, ParsedBody(value))
                case None =>
                  Response(200, CorsJson, FallbackBody(
                    FallbackPrediction(req.energyConsumption.value, req.fuelUsage.value, req.wasteGenerated)))
  }

  /** A pre-flight request gets the CORS headers and no body, whatever else holds. */
  lemma OptionsIsAnsweredFirst(body: Result<PredictionRequest, string>, apiKey: Option<string>,
                               upstream: Upstream, jsonParse: string -> Option<Json>)
    ensures Handle("OPTIONS", body, apiKey, upstream, jsonParse) == Response(200, Cors, NoBody)
  {
  }

  /** A body that cannot be read is reported with the exception's message. */
  lemma UnreadableBody(verb: string, message: string, apiKey: Option<string>,
                       upstream: Upstream, jsonParse: string -> Option<Json>)
    requires verb != "OPTIONS"
    ensures Handle(verb, Failure(message), apiKey, upstream, jsonParse) == JsonError(500, message)
  {
  }

  /** A falsy energy or fuel amount is a 400, decided before the credential is looked at. */
  lemma MissingInputsRejected(verb: string, req: PredictionRequest, apiKey: Option<string>,
                              upstream: Upstream, jsonParse: string -> Option<Json>)
    requires verb != "OPTIONS"
    requires req.energyConsumption.None? || req.energyConsumption == Some(0.0)
          || req.fuelUsage.None? || req.fuelUsage == Some(0.0)
    ensures Handle(verb, Success(req), apiKey, upstream, jsonParse) == JsonError(400, InvalidInputMessage)
  {
  }

  /** Any non-zero amount passes the check, negative ones included: without a
      credential such a request reaches the credential error, not the 400. */
  lemma NegativeAmountsPassValidation(verb: string, energy: real, fuel: real, upstream: Upstream,
                                      jsonParse: string -> Option<Json>)
    requires verb != "OPTIONS"
    requires energy < 0.0 && fuel < 0.0
    ensures Handle(verb, Success(PredictionRequest(Some(energy), Some(fuel), None, None, None, None)),
                   None, upstream, jsonParse) == JsonError(500, MissingKeyMessage)
  {
  }

  /** Without a credential the answer is a 500 naming the variable. */
  lemma MissingKeyIsConfigurationError(verb: string, req: PredictionRequest, apiKey: Option<string>,
                                       upstream: Upstream, jsonParse: string -> Option<Json>)
    requires verb != "OPTIONS"
    requires IsTruthy(req.energyConsumption) && IsTruthy(req.fuelUsage)
    requires apiKey.None? || apiKey == Some("")
    ensures Handle(verb, Success(req), apiKey, upstream, jsonParse) == JsonError(500, MissingKeyMessage)
  {
  }

  /** The paths that end before the gateway call: pre-flight, unreadable body,
      missing inputs and missing credential. On each of them the response is
      the same whatever the gateway would have answered and however its
      answer would have parsed, so no call is made. */
  predicate EndsBeforeGateway(verb: string, body: Result<PredictionRequest, string>, apiKey: Option<string>)
  {
    || verb == "OPTIONS"
    || body.Failure?
    || !IsTruthy(body.value.energyConsumption) || !IsTruthy(body.value.fuelUsage)
    || !IsNonEmpty(apiKey)
  }

  lemma NoGatewayCallBeforeValidation(verb: string, body: Result<PredictionRequest, string>,
                                      apiKey: Option<string>, u1: Upstream, u2: Upstream,
                                      p1: string -> Option<Json>, p2: string -> Option<Json>)
    requires EndsBeforeGateway(verb, body, apiKey)
    ensures Handle(verb, body, apiKey, u1, p1) == Handle(verb, body, apiKey, u2, p2)
    ensures Handle(verb, body, apiKey, u1, p1).status != 200 || verb == "OPTIONS"
  {
  }

  /** A request that passed the checks before the gateway call. */
  predicate Admitted(verb: string, req: PredictionRequest, apiKey: Option<string>)
  {
    verb != "OPTIONS" && IsTruthy(req.energyConsumption) && IsTruthy(req.fuelUsage) && IsNonEmpty(apiKey)
  }

  /** Gateway failures are surfaced with their own status and message and never reach the fallback. */
  lemma GatewayFailuresSurface(verb: string, req: PredictionRequest, apiKey: Option<string>,
                               status: nat, content: Option<Json>, jsonParse: string -> Option<Json>)
    requires Admitted(verb, req, apiKey) && !IsOk(status)
    ensures var r := Handle(verb, Success(req), apiKey, Replied(status, content), jsonParse);
      && (status == 429 ==> r == JsonError(429, RateLimitMessage))
      && (status == 402 ==> r == JsonError(402, PaymentMessage))
      && (status != 429 && status != 402 ==> r == JsonError(500, GatewayErrorMessage(status)))
      && !r.body.FallbackBody?
  {
  }

  /** Distinct failing statuses other than 429 and 402 give distinct messages. */
  lemma GatewayErrorMessagesDistinct(s1: nat, s2: nat)
    requires GatewayErrorMessage(s1) == GatewayErrorMessage(s2)
    ensures s1 == s2
  {
    var prefix := "AI gateway error: ";
    assert NatToString(s1) == GatewayErrorMessage(s1)[|prefix|..];
    assert NatToString(s2) == GatewayErrorMessage(s2)[|prefix|..];
    NatToStringInjective(s1, s2);
  }

  /** An exception during the call is reported with its message. */
  lemma GatewayExceptionSurfaces(verb: string, req: PredictionRequest, apiKey: Option<string>,
                                 message: string, jsonParse: string -> Option<Json>)
    requires Admitted(verb, req, apiKey)
    ensures Handle(verb, Success(req), apiKey, Threw(message), jsonParse) == JsonError(500, message)
  {
  }

  /** A successful reply whose content is missing or falsy (`null`, `false`,
      `0`, `""`) is a 500. */
  lemma MissingContentIsError(verb: string, req: PredictionRequest, apiKey: Option<string>,
                              status: nat, content: Option<Json>, jsonParse: string -> Option<Json>)
    requires Admitted(verb, req, apiKey) && IsOk(status)
    requires !IsTruthyJson(content)
    ensures Handle(verb, Success(req), apiKey, Replied(status, content), jsonParse)
         == JsonError(500, NoContentMessage)
  {
  }

  /** Whatever the cleaned content parses to is returned with 200, with no check of its shape. */
  lemma ParsedAnswerReturnedVerbatim(verb: string, req: PredictionRequest, apiKey: Option<string>,
                                     status: nat, content: string, jsonParse: string -> Option<Json>, value: Json)
    requires Admitted(verb, req, apiKey) && IsOk(status) && content != ""
    requires jsonParse(Clean(content)) == Some(value)
    ensures Handle(verb, Success(req), apiKey, Replied(status, Some(JString(content))), jsonParse)
         == Response(200, CorsJson, ParsedBody(value))
  {
  }

  /** When the cleaned content does not parse, the answer is the fallback estimate, with 200. */
  lemma UnparsableAnswerFallsBack(verb: string, req: PredictionRequest, apiKey: Option<string>,
                                  status: nat, content: string, jsonParse: string -> Option<Json>)
    requires Admitted(verb, req, apiKey) && IsOk(status) && content != ""
    requires jsonParse(Clean(content)).None?
    ensures var r := Handle(verb, Success(req), apiKey, Replied(status, Some(JString(content))), jsonParse);
      && r.status == 200
      && r.body == FallbackBody(FallbackPrediction(req.energyConsumption.value, req.fuelUsage.value, req.wasteGenerated))
  {
  }

  /** Truthy content that is not a string (a number, `true`, an array of
      content parts, an object) makes the fence removal throw inside the inner
      `try`, so the answer is the fallback estimate with 200, whatever the
      parser would have made of it. */
  lemma NonStringContentFallsBack(verb: string, req: PredictionRequest, apiKey: Option<string>,
                                  status: nat, content: Json, jsonParse: string -> Option<Json>)
    requires Admitted(verb, req, apiKey) && IsOk(status)
    requires IsTruthyJson(Some(content)) && !content.JString?
    ensures var r := Handle(verb, Success(req), apiKey, Replied(status, Some(content)), jsonParse);
      && r.status == 200
      && r.body == FallbackBody(FallbackPrediction(req.energyConsumption.value, req.fuelUsage.value, req.wasteGenerated))
  {
  }

  /** A fenced answer and the bare answer give the same response. */
  lemma FencedAnswerHandledLikeBare(verb: string, body: Result<PredictionRequest, string>, apiKey: Option<string>,
                                    status: nat, p: string, jsonParse: string -> Option<Json>)
    requires NoBacktick(p) && p != ""
    ensures Handle(verb, body, apiKey, Replied(status, Some(JString("```json\n" + p + "\n```"))), jsonParse)
         == Handle(verb, body, apiKey, Replied(status, Some(JString(p))), jsonParse)
  {
    FencedPayloadCleansLikeBare(p);
  }

  /** Production volume, water usage and industry type only reach the prompt:
      two requests that agree on energy, fuel and waste get the same response
      for the same gateway outcome. */
  lemma ContextFieldsDoNotAffectResponse(verb: string, r1: PredictionRequest, r2: PredictionRequest,
                                         apiKey: Option<string>, upstream: Upstream, jsonParse: string -> Option<Json>)
    requires r1.energyConsumption == r2.energyConsumption
    requires r1.fuelUsage == r2.fuelUsage
    requires r1.wasteGenerated == r2.wasteGenerated
    ensures Handle(verb, Success(r1), apiKey, upstream, jsonParse)
         == Handle(verb, Success(r2), apiKey, upstream, jsonParse)
  {
  }
}
