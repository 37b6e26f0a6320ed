# posture-pal: a Dafny model of the questionnaire → analysis → results pipeline

The application asks five questions about posture and pain. It sends the answers to the
`analyze-posture` edge function, which wraps them in a prompt for an AI gateway and forwards
the model's JSON answer. The results page then classifies failures, stores the answer and
renders it. This project models the three pieces of decision logic in that chain:

- **The edge function** (`AnalyzePosture`, `analyze_posture.dfy`). It is one total function
  `Handle(request, apiKey, provider)`. It returns the response (status, body, headers) and the
  effects performed, in order: reading the body, looking up the key, calling the gateway. It
  covers the CORS preflight, the missing-key failure, the user-prompt template, the gateway
  request body, the status mapping (429 → 429, 402 → 402, other failures → 500, success →
  parsed content forwarded) and the catch-all 500.
- **The questionnaire page** (`Assessment`, `assessment.dfy`). It covers the five-field
  `AssessmentData` record, the empty start, single-field updates, `isFormValid`, the submit
  gate and the button's `disabled` condition. The page state (`formData`, `loading`) is the
  class `AssessmentPage`; its handlers are proved against the pure functions `WithField` and
  `Submit`.
- **The results page** (`Results`, `results.dfy`). It covers the classification of the
  invocation outcome ("429" is tested before "402", everything else is generic), the redirect
  rules, and the `loading`/`results` transitions as the class `ResultsPage`, proved against
  `Analyze`. It also covers the severity badge and what is rendered.

Supporting modules: `Text` (JavaScript's `includes` and its occurrence-based reading, decimal
rendering of a status, filling a template and reading it back), `Json` (JSON values and
property lookup), `Effects` (toast kinds and navigation/invocation effects as tags),
`Wrappers` (`Option`), and `Pipeline` (one lemma chaining the three pieces).

Effects of the outside world are inputs:
- the parsed request body;
- the `LOVABLE_API_KEY` environment value (`Option<string>`; an empty value counts as missing,
  as JavaScript's `!` test does);
- how the `fetch` to the gateway ends;
- whether the router call throws;
- what `supabase.functions.invoke` resolves to.

Bodies are modelled as the JSON values they serialise. So "forwarded unchanged" means "the
same value".

The code validates nothing beyond the client's submit gate: there is no check of the AI's
response (of its severity or its exercises) and no rejection of an incomplete assessment on the
server. The edge function parses `choices[0].message.content` and forwards whatever parses. The results
page stores that payload unchanged.
In the model, therefore, `severity` is a free string: an unknown value gets no badge label and no
colour, and it is not rejected. The server interpolates whatever values it receives. Lemma
`UserPromptCollision` shows that two different assessments whose answers contain a separator give
the same prompt. `UserPromptRoundTrip` shows that single-line answers (all the widgets offer)
can be read back exactly.

## Model

| member | source | states |
|---|---|---|
| `AnalyzePosture.Handle` | supabase/functions/analyze-posture/index.ts:9-117 | every response carries the CORS headers; JSON bodies carry exactly CORS + `Content-Type: application/json`; the status is one of 200, 402, 429, 500; there is no body exactly for `OPTIONS`, and then there are no effects; the gateway is fetched at most once, as the third effect, only for a non-preflight request with a configured key and an assessment, and with `Outgoing(key, assessment)` |
| `AnalyzePosture.Preflight` | supabase/functions/analyze-posture/index.ts:10-12 | an `OPTIONS` request gets a 200 with no body and the CORS headers, whatever the key or gateway, after no effects at all |
| `AnalyzePosture.MalformedRequest` | supabase/functions/analyze-posture/index.ts:14-15 | a body that does not parse gives 500 with the parse error's message, after reading the body only (no key lookup) |
| `AnalyzePosture.MissingKey` | supabase/functions/analyze-posture/index.ts:16-20 | with the key absent or empty, the response is 500 with error `LOVABLE_API_KEY is not configured` and no gateway call is made |
| `AnalyzePosture.ProviderIrrelevantWithoutFetch` | supabase/functions/analyze-posture/index.ts:14-64 | when the gateway is not called, its outcome cannot influence the response or the effects |
| `AnalyzePosture.CallsGatewayOnce` | supabase/functions/analyze-posture/index.ts:64-78 | a non-preflight request with an assessment and a configured key reads the body, looks up the key, makes exactly one gateway call with `Authorization: Bearer <key>`, and answers with the mapped gateway outcome |
| `AnalyzePosture.UserPromptIsFill` | supabase/functions/analyze-posture/index.ts:53-60 | the user prompt is the fixed template with the five values in the order neck, back, shoulder, posture, duration, one per slot |
| `AnalyzePosture.UserPromptRoundTrip` | supabase/functions/analyze-posture/index.ts:53-60 | for single-line answers the five values can be read back verbatim from the prompt |
| `AnalyzePosture.UserPromptInjective` | supabase/functions/analyze-posture/index.ts:53-60 | two single-line assessments with the same prompt are equal |
| `AnalyzePosture.UserPromptCollision` | supabase/functions/analyze-posture/index.ts:53-60 | an answer that itself contains `\n- Back pain: ` shifts text between slots: two different assessments then give the same prompt (the server checks nothing) |
| `AnalyzePosture.CompletionBodyShape` | supabase/functions/analyze-posture/index.ts:70-77 | the gateway body names model `google/gemini-2.5-flash`, holds exactly two messages (system with the system prompt, then user with the user prompt) and asks for `response_format` `json_object` |
| `AnalyzePosture.FailedStatusMapping` | supabase/functions/analyze-posture/index.ts:80-98 | a non-ok status 429 gives 429 with the rate-limit message, 402 gives 402 with the payment message, and any other non-ok status gives 500 with `AI Gateway returned <status>: <errorText>` |
| `AnalyzePosture.GatewayErrorMessageNamesStatus` | supabase/functions/analyze-posture/index.ts:98 | the generic gateway error starts with `AI Gateway returned `, the decimal status follows and reads back as that status, and the gateway's text follows after `: ` |
| `AnalyzePosture.OkResponse` | supabase/functions/analyze-posture/index.ts:101-115 | an ok status with parseable content returns that value unchanged with status 200; with content that does not parse it falls into the catch and returns 500 with the thrown message |
| `Text.DecimalRoundTrip` | supabase/functions/analyze-posture/index.ts:98 | the decimal rendering of a status is non-empty and parses back to the status |
| `Text.ContainsIffOccurs` | src/pages/Results.tsx:47-53 | `includes` holds exactly when the needle equals some slice of the text |
| `Assessment.WithField` | src/pages/Assessment.tsx:84-158 | a field update sets that field to the new value and leaves the other four unchanged |
| `Assessment.IsFormValidIff` | src/pages/Assessment.tsx:31-33 | `isFormValid` holds exactly when all five fields are non-empty |
| `Assessment.EmptyIsInvalid` | src/pages/Assessment.tsx:23-29 | the initial record has all five fields `""` and is invalid |
| `Assessment.OptionsAreSingleLineWords` | src/pages/Assessment.tsx:89-166 | every value a widget offers (`yes`/`no`; `1-7days`/`1-4weeks`/`>1month` for duration) is non-empty and has no newline |
| `Assessment.UnpickedUnchanged` | src/pages/Assessment.tsx:84-158 | after any sequence of widget events, a field no event touched keeps its value |
| `Assessment.PickedHoldsOption` | src/pages/Assessment.tsx:84-168 | after widget events offering only listed values, a touched field holds one of its widget's values |
| `Assessment.AnsweredFormIsValid` | src/pages/Assessment.tsx:31-33 | answering every question through the widgets, in any order and with corrections, gives a valid form of offered values |
| `Assessment.SubmitIncomplete` | src/pages/Assessment.tsx:38-45 | submitting a form with an empty field shows only the "Incomplete Assessment" toast, does not navigate and leaves `loading` unchanged |
| `Assessment.SubmitComplete` | src/pages/Assessment.tsx:47-51 | submitting a complete form sets `loading` and navigates to `/results` carrying the record unchanged |
| `Assessment.EnabledSubmitNavigates` | src/pages/Assessment.tsx:171-173 | when the button is enabled (not loading and form valid), pressing it navigates with the current form and sets `loading` |
| `Assessment.SubmitNavigatesOnlyComplete` | src/pages/Assessment.tsx:38-51 | any navigation the submit emits goes to `/results` with the current record, and that record is complete |
| `Assessment.AssessmentPage.constructor` | src/pages/Assessment.tsx:22-29 | the page starts with the empty record and `loading` false |
| `Assessment.AssessmentPage.OnValueChange` | src/pages/Assessment.tsx:84-158 | a widget event sets `formData` to the one-field update of the old record and leaves `loading` unchanged |
| `Assessment.AssessmentPage.HandleSubmit` | src/pages/Assessment.tsx:35-60 | the new `loading` and the emitted effects are those of `Submit` on the old record and `loading` (including the navigate-throws path: error toast, `loading` false); `formData` is unchanged |
| `Results.MentionsIffIncludes` | src/pages/Results.tsx:47-53 | the `error.message?.includes(code)` test holds exactly when the message is present and the code occurs in it |
| `Results.ClassifyRateLimited` | src/pages/Results.tsx:47-52 | an outcome is rate-limited exactly when its error message mentions 429, whether or not it also mentions 402 |
| `Results.ClassifyQuotaExhausted` | src/pages/Results.tsx:53-58 | an outcome is the service-unavailable case exactly when its error message mentions 402 and not 429 |
| `Results.ClassifyFailed` | src/pages/Results.tsx:59-74 | an outcome is the generic failure exactly when the invocation threw, or an error came back whose message is absent or mentions neither code |
| `Results.ClassifySucceeded` | src/pages/Results.tsx:42-46 | an outcome succeeds exactly when it resolved without error, and then it carries the returned data |
| `Results.MissingAssessmentRedirects` | src/pages/Results.tsx:35-38 | without an assessment in the navigation state, the only effect is navigating to `/assessment`, the function is not invoked and the state is unchanged |
| `Results.InvocationCarriesAssessment` | src/pages/Results.tsx:40-81 | with an assessment, the first effect invokes `analyze-posture` with that assessment unchanged, no other effect invokes, and `loading` ends false |
| `Results.SuccessStoresData` | src/pages/Results.tsx:66-77 | a resolved call without error stores the returned data unchanged as `results`, clears `loading`, and does nothing else after the invocation |
| `Results.FailureRedirects` | src/pages/Results.tsx:46-77 | every failure shows its toast (rate limit, service unavailable or analysis error), then navigates to `/assessment`; `results` is unchanged and `loading` ends false |
| `Results.ResultsOnlyOnSuccess` | src/pages/Results.tsx:30-77 | starting from the initial state, a result is stored only by a call that resolved without error, and it is that call's data |
| `Results.ResultsPage.constructor` | src/pages/Results.tsx:29-30 | the page starts loading and without results |
| `Results.ResultsPage.OnMount` | src/pages/Results.tsx:34-81 | the new `loading`, `results` and the emitted effects are those of `Analyze` on the old state, the navigation state and the outcome |
| `Results.BadgeForSeverity` | src/pages/Results.tsx:96-120 | `mild`, `moderate` and `needs_attention` get "Mild Concerns", "Moderate Concerns" and "Needs Medical Attention", pairwise different, each with a colour; any other string gets an empty label and no colour |
| `Results.SectionsShown` | src/pages/Results.tsx:114-173 | the severity badge comes first; the issues, exercises and tips sections each appear exactly when their list is non-empty; the medical warning appears exactly when severity is `needs_attention` |
| `Results.RenderAfterMount` | src/pages/Results.tsx:83-94 | after the mount effect from the initial state: without an assessment the spinner stays; after any failure nothing is rendered (no partial result); the result page appears exactly for a resolved call without error that carried data, with that data's sections |
| `Results.FailureToastTitles` | src/pages/Results.tsx:46-72 | a failed analysis shows "Rate Limit Exceeded" exactly when the message mentions 429, "Service Unavailable" exactly when it mentions 402 and not 429, and "Analysis Error" exactly when it mentions neither |
| `Effects.TitlesDistinct` | src/pages/Assessment.tsx:38-57 | the five toasts ("Incomplete Assessment", "Error", and the three of the results page) have pairwise different titles |
| `Pipeline.AnsweredQuestionnaireReachesGateway` | src/pages/Results.tsx:42-44 | a questionnaire answered through the widgets navigates with its record; the results page invokes the function with it; given a key, the edge function's gateway call carries it; the user prompt reads back to it |

## Left out

- `fetch`, `serve`, `req.json()`, `response.json()`, `Deno.env.get` and `supabase.functions.invoke` are not modelled; their results are inputs (`RequestPayload`, the key, `ProviderOutcome`, `InvokeOutcome`).
- The text of the client library's error message is an input. Whether it ever contains the gateway's status code depends on the Supabase client, which is not part of this model.
- A rejection of `response.text()` on the error path is not modelled. A failure of `response.json()`, or a missing `choices`, is folded into `Content.Malformed` with its message.
- The `'Unknown error'` fallback of the catch is not modelled. Every failure on the modelled paths is an `Error` with a message.
- `AnalyzePosture.SystemPrompt` is an opaque constant. Its wording is instructions to the model. The "more than a month with several yes answers ⇒ needs_attention" rule is in that text, not in code, so it is not a property here.
- JSON text is not modelled. Bodies are the values `JSON.stringify` serialises. `JNumber` keeps a literal as given, so the number normalisation of `JSON.parse` followed by `JSON.stringify` (`1.50` becomes `1.5`, an overflowing literal becomes `null`) is not modelled; `AnalyzePosture.OkResponse`'s "unchanged" is about the modelled value. No field the results page reads is numeric.
- `Results.Sections` covers only payloads of the declared shape. A payload missing `issues`, `exercises` or `tips` makes the real component throw while rendering, and that is not modelled. A severity outside the three literals is modelled (no label, no colour).
- `useEffect` scheduling, re-runs when dependencies change, async timing and unmounting on navigation are concurrency concerns and are left out. `OnMount` runs once with the awaited outcome.
- `console.log` / `console.error` logging is observability only.
- JSX, CSS classes, toast descriptions, and the "Back to Home" and "Take Another Assessment" buttons are presentation. Toasts and navigation appear only as effect tags, and the retake button only as a section.
- `src/pages/Index.tsx` is a static landing page. `src/components/ExerciseCard.tsx` is presentation; its 1-based step numbering is not part of this model.
