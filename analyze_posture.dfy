/** The `analyze-posture` edge function. Its two awaited collaborators,
    the request body and the AI gateway, are inputs: the request is given
    already parsed (or as the parse failure), `apiKey` is what the
    environment holds, and `provider` is how the gateway call ends. The
    handler returns the response it builds and the effects it performs
    in order, so that "no key lookup" and "no gateway call" can be stated. */
module AnalyzePosture {
  import opened Wrappers
  import opened Text
  import opened Json
  import opened Assessment

  type Headers = seq<(string, string)>

  const CorsHeaders: Headers := [
    ("Access-Control-Allow-Origin", "*"),
    ("Access-Control-Allow-Headers", "authorization, x-client-info, apikey, content-type")
  ]

  const JsonHeaders: Headers := CorsHeaders + [("Content-Type", "application/json")]

  datatype Body = NoBody | JsonBody(value: Json)

  /** `new Response(body, init)`; `status` defaults to 200. */
  datatype Response = Response(status: int, body: Body, headers: Headers)

  /** What `await req.json()` and the `assessment` member give: a parse
      failure, no assessment (reading its fields throws a TypeError), or an
      assessment whose members are rendered as template text; a member that is
      not a string appears as its string form, "undefined" when absent. */
  datatype RequestPayload =
    | Unparseable(message: string)
    | MissingAssessment(message: string)
    | WithAssessment(assessment: AssessmentData)

  datatype Request = Request(httpMethod: string, payload: RequestPayload)

  /** `JSON.parse(data.choices[0].message.content)`: a value, or the message
      of whatever it threw (bad JSON, no `choices`, ...). */
  datatype Content = Parsed(value: Json) | Malformed(message: string)

  /** How the `fetch` to the gateway ends: it rejects, or a response arrives
      with its status, its text (read on the error path) and its content. */
  datatype ProviderOutcome =
    | Unreachable(message: string)
    | Replied(status: nat, errorText: string, content: Content)

  /** `response.ok`. */
  predicate IsOk(status: nat)
  {
    200 <= status <= 299
  }

  datatype GatewayRequest = GatewayRequest(url: string, httpMethod: string, headers: Headers, body: Json)

  datatype Effect = ReadBody | LookupKey | Fetch(request: GatewayRequest)

  datatype Handled = Handled(response: Response, effects: seq<Effect>)

  /** The fixed instructions sent as the system turn; their wording is
      instructions to the model and plays no part in any decision here. */
  const SystemPrompt: string

  const GatewayUrl := "https://ai.gateway.lovable.dev/v1/chat/completions"
  const ModelId := "google/gemini-2.5-flash"
  const MissingKeyMessage := "LOVABLE_API_KEY is not configured"
  const RateLimitMessage := "Rate limit exceeded. Please try again in a few moments."
  const PaymentMessage := "Payment required. Please add credits to your workspace."

  /** `if (!LOVABLE_API_KEY)` fails for an absent and for an empty value. */
  predicate KeyConfigured(apiKey: Option<string>)
  {
    apiKey.Some? && apiKey.value != ""
  }

  const PromptClosing := "Please analyze this assessment and provide personalized recommendations."

  /** The `userPrompt` template with the five values interpolated
      (grouped from the right). */
  function UserPrompt(a: AssessmentData): string
  {
    "Assessment Results:\n- Neck pain: " + (a.neckPain
    + ("\n- Back pain: " + (a.backPain
    + ("\n- Shoulder stiffness: " + (a.shoulderStiffness
    + ("\n- Poor sitting posture: " + (a.poorPosture
    + ("\n- Duration of discomfort: " + (a.duration
    + ("\n\n" + PromptClosing))))))))))
  }

  /** The template's fixed text, cut at the five slots. */
  const PromptSeparators: seq<string> := [
    "Assessment Results:\n- Neck pain: ",
    "\n- Back pain: ",
    "\n- Shoulder stiffness: ",
    "\n- Poor sitting posture: ",
    "\n- Duration of discomfort: ",
    "\n\n" + PromptClosing
  ]

  lemma UserPromptIsFill(a: AssessmentData)
    ensures UserPrompt(a) == Fill(PromptSeparators, Values(a))
  {
    var seps, vs := PromptSeparators, Values(a);
    var f5 := seps[5];
    assert Fill(seps[5..], vs[5..]) == f5;
    var f4 := seps[4] + (vs[4] + f5);
    assert Fill(seps[4..], vs[4..]) == f4;
    var f3 := seps[3] + (vs[3] + f4);
    assert Fill(seps[3..], vs[3..]) == f3;
    var f2 := seps[2] + (vs[2] + f3);
    assert Fill(seps[2..], vs[2..]) == f2;
    var f1 := seps[1] + (vs[1] + f2);
    assert Fill(seps[1..], vs[1..]) == f1;
    assert Fill(seps, vs) == seps[0] + (vs[0] + f1);
  }

  /** Reads the five answers back out of a user prompt. */
  function ParseUserPrompt(s: string): Option<AssessmentData>
  {
    match Parse(PromptSeparators, s)
    case Some(vs) =>
      if |vs| == 5 then Some(AssessmentData(vs[0], vs[1], vs[2], vs[3], vs[4])) else None
    case None => None
  }

  /** The five values appear verbatim, in order, each in its own slot:
      when they are single-line, the prompt determines them. */
  lemma UserPromptRoundTrip(a: AssessmentData)
    requires forall f :: '\n' !in Get(a, f)
    ensures ParseUserPrompt(UserPrompt(a)) == Some(a)
  {
    var vs := Values(a);
    assert SingleLine(vs) by {
      assert vs == [Get(a, NeckPain), Get(a, BackPain), Get(a, ShoulderStiffness), Get(a, PoorPosture), Get(a, Duration)];
    }
    assert LineSeparated(PromptSeparators) by {
      var seps := PromptSeparators;
      assert seps[1][0] == '\n' && seps[2][0] == '\n' && seps[3][0] == '\n';
      assert seps[4][0] == '\n';
      assert seps[5][0] == "\n\n"[0];
    }
    UserPromptIsFill(a);
    ParseFill(PromptSeparators, vs);
  }

  lemma UserPromptInjective(a: AssessmentData, b: AssessmentData)
    requires forall f :: '\n' !in Get(a, f) && '\n' !in Get(b, f)
    requires UserPrompt(a) == UserPrompt(b)
    ensures a == b
  {
    UserPromptRoundTrip(a);
    UserPromptRoundTrip(b);
  }

  /** Nothing on the server restricts the values: an answer that itself
      contains the next separator shifts text between slots, and two
      different assessments give the same prompt. */
  lemma UserPromptCollision(x: string, y: string, z: string, rest: AssessmentData)
    ensures var sep := "\n- Back pain: ";
            var a := rest.(neckPain := x + sep + y, backPain := z);
            var b := rest.(neckPain := x, backPain := y + sep + z);
            a != b && UserPrompt(a) == UserPrompt(b)
  {
    var sep := "\n- Back pain: ";
    var a := rest.(neckPain := x + sep + y, backPain := z);
    var b := rest.(neckPain := x, backPain := y + sep + z);
    assert |a.neckPain| != |b.neckPain|;
    var t := "\n- Shoulder stiffness: " + (rest.shoulderStiffness
      + ("\n- Poor sitting posture: " + (rest.poorPosture
      + ("\n- Duration of discomfort: " + (rest.duration
      + ("\n\n" + PromptClosing))))));
    var w := sep + (z + t);
    assert (x + sep + y) + w == x + (sep + (y + w));
    assert (y + sep + z) + t == y + (sep + (z + t));
  }

  /** The two conversation turns. */
  function Message(role: string, content: string): Json
  {
    JObject([("role", JString(role)), ("content", JString(content))])
  }

  /** The JSON body posted to the gateway. */
  function CompletionBody(a: AssessmentData): Json
  {
    JObject([
      ("model", JString(ModelId)),
      ("messages", JArray([Message("system", SystemPrompt), Message("user", UserPrompt(a))])),
      ("response_format", JObject([("type", JString("json_object"))]))
    ])
  }

  function Outgoing(key: string, a: AssessmentData): GatewayRequest
  {
    GatewayRequest(GatewayUrl, "POST",
      [("Authorization", "Bearer " + key), ("Content-Type", "application/json")],
      CompletionBody(a))
  }

  /** The body carries the fixed model, exactly the system turn then the user
      turn built from the assessment, and asks for a JSON object. */
  lemma CompletionBodyShape(a: AssessmentData)
    ensures Member(CompletionBody(a), "model") == Some(JString(ModelId))
    ensures Member(CompletionBody(a), "response_format") == Some(JObject([("type", JString("json_object"))]))
    ensures var m := Member(CompletionBody(a), "messages");
            m.Some? && m.value.JArray? && |m.value.items| == 2
            && Member(m.value.items[0], "role") == Some(JString("system"))
            && Member(m.value.items[0], "content") == Some(JString(SystemPrompt))
            && Member(m.value.items[1], "role") == Some(JString("user"))
            && Member(m.value.items[1], "content") == Some(JString(UserPrompt(a)))
  {
    var members := CompletionBody(a).members;
    LookupAt(members, "model", 0);
    LookupAt(members, "messages", 1);
    LookupAt(members, "response_format", 2);
    var items := [Message("system", SystemPrompt), Message("user", UserPrompt(a))];
    forall k | 0 <= k < 2 ensures Member(items[k], "role") == Some(items[k].members[0].1)
                             && Member(items[k], "content") == Some(items[k].members[1].1) {
      LookupAt(items[k].members, "role", 0);
      LookupAt(items[k].members, "content", 1);
    }
  }

  /** The catch-all: status 500 with the thrown error's message. */
  function ErrorResponse(status: int, message: string): Response
  {
    Response(status, JsonBody(JObject([("error", JString(message))])), JsonHeaders)
  }

  /** The text of the error thrown for any other failed gateway status. */
  function GatewayErrorMessage(status: nat, errorText: string): string
  {
    "AI Gateway returned " + Decimal(status) + ": " + errorText
  }

  /** The response once the gateway call has ended. */
  function ProviderResponse(p: ProviderOutcome): Response
  {
    match p
    case Unreachable(message) => ErrorResponse(500, message)
    case Replied(status, errorText, content) =>
      if !IsOk(status) then
        if status == 429 then ErrorResponse(429, RateLimitMessage)
        else if status == 402 then ErrorResponse(402, PaymentMessage)
        else ErrorResponse(500, GatewayErrorMessage(status, errorText))
      else match content
        case Parsed(value) => Response(200, JsonBody(value), JsonHeaders)
        case Malformed(message) => ErrorResponse(500, message)
  }

  /** The `serve` handler. */
  function Handle(req: Request, apiKey: Option<string>, provider: ProviderOutcome): (h: Handled)
    ensures CorsHeaders <= h.response.headers
    ensures h.response.status in {200, 402, 429, 500}
    ensures h.response.body.NoBody? <==> req.httpMethod == "OPTIONS"
    ensures h.response.body.NoBody? ==> h.response == Response(200, NoBody, CorsHeaders) && h.effects == []
    ensures h.response.body.JsonBody? ==> h.response.headers == JsonHeaders
    ensures CallsGateway(req, apiKey) ==> |h.effects| == 3 && h.effects[2].Fetch?
    ensures forall i :: 0 <= i < |h.effects| && h.effects[i].Fetch? ==>
              i == 2 && CallsGateway(req, apiKey)
              && h.effects[i].request == Outgoing(apiKey.value, req.payload.assessment)
  {
    if req.httpMethod == "OPTIONS" then
      Handled(Response(200, NoBody, CorsHeaders), [])
    else if req.payload.Unparseable? then
      Handled(ErrorResponse(500, req.payload.message), [ReadBody])
    else if !KeyConfigured(apiKey) then
      Handled(ErrorResponse(500, MissingKeyMessage), [ReadBody, LookupKey])
    else if req.payload.MissingAssessment? then
      Handled(ErrorResponse(500, req.payload.message), [ReadBody, LookupKey])
    else
      Handled(ProviderResponse(provider),
        [ReadBody, LookupKey, Fetch(Outgoing(apiKey.value, req.payload.assessment))])
  }

  /** The only circumstances in which the handler calls the gateway. */
  predicate CallsGateway(req: Request, apiKey: Option<string>)
  {
    req.httpMethod != "OPTIONS" && KeyConfigured(apiKey) && req.payload.WithAssessment?
  }

  predicate Fetched(h: Handled)
  {
    exists i :: 0 <= i < |h.effects| && h.effects[i].Fetch?
  }

  /** A preflight is answered before anything else happens. */
  lemma Preflight(m: RequestPayload, apiKey: Option<string>, provider: ProviderOutcome)
    ensures Handle(Request("OPTIONS", m), apiKey, provider) == Handled(Response(200, NoBody, CorsHeaders), [])
  {
  }

  /** Without a usable key the gateway is never called and the error names
      the missing variable. */
  lemma MissingKey(req: Request, apiKey: Option<string>, provider: ProviderOutcome)
    requires req.httpMethod != "OPTIONS" && !req.payload.Unparseable?
    requires !KeyConfigured(apiKey)
    ensures Handle(req, apiKey, provider).response == ErrorResponse(500, MissingKeyMessage)
    ensures !Fetched(Handle(req, apiKey, provider))
  {
  }

  /** A request body that does not parse fails before the key is looked up. */
  lemma MalformedRequest(httpMethod: string, message: string, apiKey: Option<string>, provider: ProviderOutcome)
    requires httpMethod != "OPTIONS"
    ensures Handle(Request(httpMethod, Unparseable(message)), apiKey, provider) == Handled(ErrorResponse(500, message), [ReadBody])
  {
  }

  /** The gateway outcome matters only when the gateway was called. */
  lemma ProviderIrrelevantWithoutFetch(req: Request, apiKey: Option<string>, p: ProviderOutcome, q: ProviderOutcome)
    requires !Fetched(Handle(req, apiKey, p))
    ensures Handle(req, apiKey, p) == Handle(req, apiKey, q)
  {
  }

  /** A well-formed request with a key makes exactly one gateway call, with
      the bearer key and the body built from the assessment, and answers
      with whatever the gateway outcome maps to. */
  lemma CallsGatewayOnce(httpMethod: string, a: AssessmentData, apiKey: Option<string>, provider: ProviderOutcome)
    requires httpMethod != "OPTIONS" && KeyConfigured(apiKey)
    ensures Handle(Request(httpMethod, WithAssessment(a)), apiKey, provider) ==
      Handled(ProviderResponse(provider), [ReadBody, LookupKey, Fetch(Outgoing(apiKey.value, a))])
    ensures Outgoing(apiKey.value, a).headers[0] == ("Authorization", "Bearer " + apiKey.value)
  {
  }

  /** Status mapping of a failed gateway call: 429 and 402 pass through with
      their own messages, anything else becomes a 500 naming the status and
      the gateway's text. */
  lemma FailedStatusMapping(status: nat, errorText: string, content: Content)
    requires !IsOk(status)
    ensures var r := ProviderResponse(Replied(status, errorText, content));
      (status == 429 ==> r == ErrorResponse(429, RateLimitMessage))
      && (status == 402 ==> r == ErrorResponse(402, PaymentMessage))
      && (status != 429 && status != 402 ==> r == ErrorResponse(500, GatewayErrorMessage(status, errorText)))
  {
  }

  /** The generic gateway error message names the status and carries the
      gateway's text: both can be read back from it. */
  lemma GatewayErrorMessageNamesStatus(status: nat, errorText: string)
    ensures var m := GatewayErrorMessage(status, errorText);
      var prefix := "AI Gateway returned ";
      var digits := Decimal(status);
      StartsWith(m, prefix)
      && m[|prefix|..|prefix| + |digits|] == digits
      && ParseDecimal(digits) == status
      && m[|prefix| + |digits| + 2..] == errorText
  {
    DecimalRoundTrip(status);
    var m := GatewayErrorMessage(status, errorText);
    var prefix := "AI Gateway returned ";
    var digits := Decimal(status);
    assert m == prefix + digits + ": " + errorText;
    assert m[|prefix|..|prefix| + |digits|] == digits;
    assert m[|prefix| + |digits| + 2..] == errorText;
  }

  /** A successful gateway call forwards the parsed content unchanged with the
      default status; content that does not parse falls into the catch. */
  lemma OkResponse(status: nat, errorText: string, content: Content)
    requires IsOk(status)
    ensures content.Parsed? ==>
      ProviderResponse(Replied(status, errorText, content)) == Response(200, JsonBody(content.value), JsonHeaders)
    ensures content.Malformed? ==>
      ProviderResponse(Replied(status, errorText, content)) == ErrorResponse(500, content.message)
  {
  }
}
