# Portfolio site: AI chat dispatch, endpoints and client state, modelled in Dafny

This project models the logic of a personal portfolio website built with
Next.js. The site has a floating AI-chat widget, two JSON endpoints, and a few
timer-driven components on its pages:

- **Model registry** (`Registry`): four model descriptors (`gpt-4`, `gpt-3.5`,
  `claude`, `gemini`), each with a display name and a provider, looked up by id.
- **Provider configuration** (`Config`): the model list of each provider.
- **AI dispatch** (`AI`): `generateAIResponse` is a closed four-way switch. It
  sends the two OpenAI ids to the OpenAI handler, `claude` to the Anthropic
  handler and `gemini` to the Google handler. Any other id fails with
  "Invalid model selected". Each handler builds its request and normalises the
  reply. The three provider services are abstract functions from the request to
  a reply or an error (`AI.Upstream`). Each handler receives only its own
  provider's function. The module also models the start-up check that all
  three API keys are present.
- **Chat endpoint** (`ChatRoute`): writes one message record, then dispatches.
  It answers `{message}` with status 200, and turns every failure into a single
  500 response.
- **Chat-message schema** (`Schema`): `content` must be non-empty, `modelId`
  may be any string, and `type` is an enum that defaults to `user`.
- **Contact endpoint** (`ContactRoute`): validates the body against the contact
  schema, writes the submission, and answers 201 with the new id. Validation
  failures and write failures both give the same 500 response.
- **Contact form** (`ContactForm`): has its own copy of the schema and empty
  default values. Its submit flow raises `isSubmitting`, shows a toast, resets
  the form only after an ok response, and always lowers `isSubmitting` at the end.
- **Chat widget** (`AIAssistant`): a class holding an append-only transcript,
  the input line, the selected model and a loading flag. The asynchronous
  `handleSend` is split at its `await` into `BeginSend` and `FinishSend`.
- **Rotating card** (`AnimatedContent`): a class with an explicit `Tick` in
  place of the 5-second timer. It steps through 3 projects, then 2 experiences,
  then back to the projects.
- **Image slider** (`Projects`): a class whose `Tick` moves to
  `(index + 1) % images.length` while the card is hovered.

The persistence store is `Store.Table<R>`, a class whose `rows` sequence only
grows. Whether a write is accepted is a parameter, and an accepted record gets
its position as its id. The zod email check is an opaque parameter
`isEmail: string -> bool`. Timers are replaced by explicit step methods.
Network responses are parameters of the step that follows the `await`.

Four behaviours of the code are easy to miss, and the model keeps them:

- The chat endpoint has no input validation and no 400 response. An empty
  `content` is written and dispatched like any other.
- The chat endpoint does not persist the assistant reply. Exactly one record is
  written per request, and it stays when dispatch fails.
- An OpenAI reply with null content, and an Anthropic reply whose first block is
  not text, give the empty string as a successful result. Neither is an error.
- The handlers are returned without `await` inside the dispatch's `try`, so the
  `catch` there only sees the synchronous invalid-model throw. It rethrows what
  it sees, so in the model every failure reaches the caller unchanged
  (`AI.DispatchPropagates`).

## Model

| member | source | states |
|---|---|---|
| ChatTypes.TypeName | src/types/chat-message.ts:3 | a message type is spelled `user`, `system` or `assistant` |
| ChatTypes.TypeNameInjective | src/types/chat-message.ts:3 | the three spellings are distinct, so a spelling determines the type |
| Registry.Find | src/components/shared/ai-assistant.tsx:93 | `find` by id returns the first entry with that id, and returns None exactly when no entry has the id |
| Registry.Lookup | src/lib/constants/index.ts:3-8 | lookup in the registry returns an entry of the registry with the requested id, or None exactly for ids outside it |
| Registry.FindDistinct | src/lib/constants/index.ts:4-7 | in a list with distinct ids, finding an entry's id returns that entry |
| Registry.RegistryShape | src/lib/constants/index.ts:3-8 | the registry has exactly four entries, with ids `gpt-4`, `gpt-3.5`, `claude`, `gemini` in that order |
| Registry.RegistryIdsDistinct | src/lib/constants/index.ts:4-7 | registry ids are pairwise distinct, so lookup by id is a partial function |
| Registry.LookupEveryEntry | src/lib/constants/index.ts:4-7 | looking up any registry entry's id returns that very entry |
| Registry.LookupTable | src/lib/constants/index.ts:4-7 | lookup returns the listed display name and provider; e.g. `claude` gives `Anthropic Claude` / `anthropic` |
| Registry.LookupDefinedOn | src/lib/constants/index.ts:4-7 | lookup succeeds exactly on the four registry ids |
| AI.Initialise | src/lib/server/ai.ts:5-18 | initialisation succeeds iff all three keys are set and non-empty; the clients then use exactly those keys, otherwise the "Missing required API keys" error |
| AI.OpenAIModelName | src/lib/server/ai.ts:41 | the upstream model is `gpt-4-turbo-preview` iff the id is `gpt-4`, and `gpt-3.5-turbo` otherwise |
| AI.HandleOpenAI | src/lib/server/ai.ts:40-48 | an SDK error is passed on; no choices is the TypeError reading `message`; otherwise the result is the first choice's content, `''` exactly when it is null or empty |
| AI.OpenAIEmptyFallback | src/lib/server/ai.ts:47 | a null first-choice content gives the successful result `''`, not a failure |
| AI.ClaudeNonTextFallback | src/lib/server/ai.ts:58 | a first Anthropic content block that is not text gives the successful result `''`, whatever blocks follow |
| AI.HandleClaude | src/lib/server/ai.ts:50-59 | the result is the first block's text when its type is `text`, `''` for any other type; SDK errors are passed on and an empty block list is the TypeError reading `type` |
| AI.HandleGemini | src/lib/server/ai.ts:61-67 | the result is the Google response text, and Google's failure is the handler's failure |
| AI.SelectHandler | src/lib/server/ai.ts:23-33 | the switch selects a handler exactly for the registry ids, and that handler talks to the provider the registry lists; the OpenAI handler keeps the id |
| AI.Dispatch | src/lib/server/ai.ts:20-38 | dispatch fails with InvalidModel iff the id is not in the registry |
| AI.OpenAIRouting | src/lib/server/ai.ts:24-26 | `gpt-4` and `gpt-3.5` go to the OpenAI handler with the id passed through, giving the two upstream model names |
| AI.SingleProviderRouting | src/lib/server/ai.ts:27-30 | `claude` depends only on the Anthropic service and `gemini` only on the Google service: dispatch gives the same result for any two upstreams that agree on that service |
| AI.InvalidModelConsultsNoProvider | src/lib/server/ai.ts:31-32 | any other id fails with "Invalid model selected", the same whatever the providers would answer |
| AI.DispatchPropagates | src/lib/server/ai.ts:31-37 | for a recognised id, dispatch returns exactly the selected handler's result, so an error is never turned into a value |
| AI.RegistryIdsRouted | src/lib/server/ai.ts:24-30 | every registry id is accepted and reaches the handler of its listed provider |
| Config.ConfigLists | src/lib/server/config.ts:1-14 | the lists are openai = [gpt-4, gpt-3.5], anthropic = [claude], google = [gemini] |
| Config.ListsDisjoint | src/lib/server/config.ts:4-12 | provider keys are distinct and no model is listed under two providers |
| Config.ListedModelsAreRegistryIds | src/lib/server/config.ts:4-12 | the union of the lists is the set of registry ids |
| Config.ListedProviderAgrees | src/lib/server/config.ts:2-13 | a model listed under provider P has provider P in the registry |
| Config.ListedModelRouted | src/lib/server/config.ts:4-12 | a model listed under provider P is routed by dispatch to P's handler |
| Store.Table.constructor | src/app/api/chat/route.ts:9 | the store starts empty |
| Store.Table.Create | src/app/api/chat/route.ts:9-15 | an accepted write appends exactly the data and yields its id; a rejected write changes nothing |
| ChatRoute.RecordFor | src/app/api/chat/route.ts:10-14 | the record holds the content, `aiModel` = modelId (absent when the body has none) and `userId` = `system` |
| ChatRoute.Answer | src/app/api/chat/route.ts:17 | the endpoint's call to dispatch fails with InvalidModel iff the body's model id is absent or outside the registry, and is dispatch on that id otherwise |
| ChatRoute.Post | src/app/api/chat/route.ts:5-23 | the store afterwards and the response are those of the endpoint function `ChatRoute.Handle`: write, then dispatch only after an accepted write |
| ChatRoute.OneRecordPerRequest | src/app/api/chat/route.ts:9-19 | with an accepted write the store grows by exactly the one request record, whatever dispatch does; the AI reply is not stored |
| ChatRoute.WriteIndependentOfDispatch | src/app/api/chat/route.ts:9-17 | the write does not depend on the dispatch: two different upstreams leave the same store |
| ChatRoute.WriteFailureSkipsDispatch | src/app/api/chat/route.ts:9-22 | a rejected write gives 500 without consulting dispatch |
| ChatRoute.SuccessCarriesReply | src/app/api/chat/route.ts:17-19 | on success the response is status 200 with `{message: aiResponse}` |
| ChatRoute.DispatchFailureIs500 | src/app/api/chat/route.ts:17-22 | any dispatch failure gives 500 `Failed to process request`, and the record already written remains |
| ChatRoute.UnknownModelWrittenThen500 | src/app/api/chat/route.ts:7-22 | an unknown or absent model id is written and then answered 500; it is not rejected up front |
| ChatRoute.WidgetBodyDispatched | src/app/api/chat/route.ts:7-19 | a body as the widget sends it is written with its model id, and answered 200 with the dispatch result or 500 when dispatch fails |
| ChatRoute.OnlyOkOrServerError | src/app/api/chat/route.ts:5-23 | every request gets 200 or 500 and never 400; 200 always has a message body; the store grows by at most the request record |
| Schema.Parse | src/lib/validations/schema.ts:3-7 | accepted iff `content` is a non-empty string, `modelId` a string and `type` absent or a message-type spelling; the value keeps both strings and takes the spelled type or `user`; each error names a field that breaks its rule |
| Schema.ParseType | src/lib/validations/schema.ts:6 | a `type` value is accepted iff it spells one of the three message types, and it parses to that type |
| Schema.ContentNonEmpty | src/lib/validations/schema.ts:4 | `content` is accepted iff its length is at least 1; the empty string fails (non-empty in characters is non-empty in UTF-16 code units, so the count does not matter here) |
| Schema.AnyModelIdAccepted | src/lib/validations/schema.ts:5 | every string is accepted as `modelId`, and the parsed value keeps content and model id |
| Schema.TypeDefaultsToUser | src/lib/validations/schema.ts:6 | an absent `type` parses as `user` |
| Schema.TypeEnumMatchesMessageType | src/lib/validations/schema.ts:6 | a present `type` is accepted iff it is `user`, `system` or `assistant`, and each message type parses back to itself |
| ContactRoute.Parse | src/app/api/contact/route.ts:5-10 | parsing succeeds iff all fields are strings, name ≥ 2, email passes the email check, subject ≥ 5 and message ≥ 10; the result keeps the fields |
| ContactRoute.Post | src/app/api/contact/route.ts:12-27 | the store afterwards and the response are those of the endpoint function `ContactRoute.Handle`: parse, then write only what parsed |
| ContactRoute.BoundaryValues | src/app/api/contact/route.ts:6-9 | `Al` / `Hello!` / `1234567890` at the bounds pass; the name `A` fails |
| ContactRoute.ValidBodyCreatesOneRecord | src/app/api/contact/route.ts:15-19 | a valid body with an accepted write creates exactly one record and answers 201 with its id |
| ContactRoute.InvalidBodyCreatesNothing | src/app/api/contact/route.ts:15-17 | an invalid body creates no record whatever the store would do, and answers 500 |
| ContactRoute.FailuresIndistinguishable | src/app/api/contact/route.ts:15-25 | the only responses are 201 and the single 500; 201 comes exactly for a valid body with an accepted write, and only then does the store grow |
| ContactForm.ClientServerAgree | src/components/sections/contact.tsx:15-20 | the client accepts a form iff the server parses its body, to the same fields; the bounds are equal |
| ContactForm.DefaultsRejected | src/components/sections/contact.tsx:24-26 | the all-empty defaults fail validation |
| ContactForm.ContactSection.constructor | src/components/sections/contact.tsx:51-55 | the form starts with the defaults and is not submitting |
| ContactForm.ContactSection.Edit | src/components/sections/contact.tsx:191-239 | editing sets the fields and nothing else |
| ContactForm.ContactSection.PressSubmit | src/components/sections/contact.tsx:57-58 | a submission starts iff the button is enabled and the client schema accepts; it raises `isSubmitting`, which disables the button, and sends the current values; a click on the disabled button does nothing |
| ContactForm.ContactSection.Complete | src/components/sections/contact.tsx:59-80 | an ok response shows the success toast and resets to defaults; a failure or non-ok response shows the error toast and keeps the fields; `isSubmitting` ends false |
| ContactForm.SubmitOnce | src/components/sections/contact.tsx:57-81 | a valid form is posted with its values and shows exactly one toast, success on an ok response and error otherwise; the form ends idle, reset only after an ok response; an invalid form changes nothing |
| AIAssistant.TrimStart | src/components/shared/ai-assistant.tsx:48 | removes exactly the leading white space |
| AIAssistant.TrimEnd | src/components/shared/ai-assistant.tsx:48 | removes exactly the trailing white space |
| AIAssistant.TrimIsInnerSlice | src/components/shared/ai-assistant.tsx:48 | `Trim` (`.trim()`) cuts only white space: a suffix of the input after its leading white space, then a prefix of that without its trailing white space; the result neither starts nor ends with white space |
| AIAssistant.TrimEmptyIffBlank | src/components/shared/ai-assistant.tsx:48 | the trimmed input is empty iff every character is white space |
| AIAssistant.SwitchNotice | src/components/shared/ai-assistant.tsx:91-95 | the model-switch notice is a system message `"Switched to " + registry name`, or `"Switched to undefined"` for an id outside the registry |
| AIAssistant.ReplyMessages | src/components/shared/ai-assistant.tsx:70-80 | an ok, readable reply gives exactly one assistant message with the reply; anything else gives none |
| AIAssistant.AIChat.constructor | src/components/shared/ai-assistant.tsx:26-31 | starts closed, with an empty transcript and input, model `gpt-4`, not loading and not minimised |
| AIAssistant.AIChat.Open | src/components/shared/ai-assistant.tsx:109 | the floating button opens the widget |
| AIAssistant.AIChat.Close | src/components/shared/ai-assistant.tsx:161 | the close button closes it |
| AIAssistant.AIChat.ToggleMinimized | src/components/shared/ai-assistant.tsx:153 | the minimise button flips the minimised flag |
| AIAssistant.AIChat.SetInput | src/components/shared/ai-assistant.tsx:231 | typing sets the input line |
| AIAssistant.AIChat.BeginSend | src/components/shared/ai-assistant.tsx:47-68 | a blank input changes nothing; otherwise one user message with the untrimmed input is appended, the input is cleared, loading starts, and the request carries the input and the selected model |
| AIAssistant.AIChat.FinishSend | src/components/shared/ai-assistant.tsx:70-86 | appends exactly the reply's assistant message, or nothing on failure; loading ends in both cases; earlier messages are unchanged |
| AIAssistant.AIChat.ModelChange | src/components/shared/ai-assistant.tsx:89-97 | sets the selected model and appends exactly one system notice |
| AIAssistant.AIChat.KeyPress | src/components/shared/ai-assistant.tsx:99-104 | a request is sent iff the key is Enter without Shift and the input is not blank; then the user message is appended, the input cleared, loading started and the request carries the input and the model; otherwise nothing changes |
| AIAssistant.Exchange | src/components/shared/ai-assistant.tsx:47-87 | a request is sent iff the input is not blank, carrying the input and the selected model; it appends the user message and then at most the reply, keeping earlier messages, and ends with the input cleared and not loading; a blank input changes nothing; the selected model and the open and minimised flags are never touched |
| AnimatedContent.Step | src/components/sections/animated-content.tsx:98-109 | below the last index a tick advances within the same list; at the last index it resets to 0 and switches lists; the index stays valid |
| AnimatedContent.StepsAdd | src/components/sections/animated-content.tsx:98-109 | `a` ticks followed by `b` ticks are `a + b` ticks |
| AnimatedContent.RunToSwitch | src/components/sections/animated-content.tsx:101-105 | from any valid index, the remaining ticks of the list lead to index 0 of the other list |
| AnimatedContent.CycleReturns | src/components/sections/animated-content.tsx:98-109 | from the first project, `projects + experiences` ticks return to the first project |
| AnimatedContent.FiveTicksRound | src/components/sections/animated-content.tsx:12-61 | with 3 projects and 2 experiences, five ticks return to (projects, 0) |
| AnimatedContent.Heading | src/components/sections/animated-content.tsx:117 | the heading is `Featured Projects` iff projects are showing, otherwise `Work Experience` |
| AnimatedContent.CardTitle | src/components/sections/animated-content.tsx:131 | the card title is the project title alone, or the title followed by ` - ` and the role for experiences |
| AnimatedContent.IsMobile | src/components/sections/animated-content.tsx:91 | mobile iff the window width is at most 768 |
| AnimatedContent.Carousel.constructor | src/components/sections/animated-content.tsx:85-87 | starts on the first project, in the desktop layout |
| AnimatedContent.Carousel.CurrentItem | src/components/sections/animated-content.tsx:111-112 | the card shown is an item of the list on show |
| AnimatedContent.Carousel.Tick | src/components/sections/animated-content.tsx:98-109 | the timer callback performs one `Step` and keeps the index valid for the list on show |
| AnimatedContent.Carousel.Resize | src/components/sections/animated-content.tsx:89-96 | the resize listener sets `isMobile` to width ≤ 768 |
| Projects.NextIndex | src/components/sections/projects.tsx:86 | the next index is in range: one more, or 0 after the last image |
| Projects.AfterTicksIsShift | src/components/sections/projects.tsx:84-87 | after `n` hovered ticks the index is `(i + n) mod len` and in range |
| Projects.FullCycle | src/components/sections/projects.tsx:86 | after `len` hovered ticks the index is back where it started |
| Projects.ImageSlider.constructor | src/components/sections/projects.tsx:79-80 | the slider starts at image 0 |
| Projects.ImageSlider.CurrentImage | src/components/sections/projects.tsx:103-104 | `images[currentIndex]` is defined and is one of the images |
| Projects.ImageSlider.SetHovered | src/components/sections/projects.tsx:84-90 | hovering starts or stops the interval; the index is kept, not reset |
| Projects.ImageSlider.Tick | src/components/sections/projects.tsx:84-89 | while hovered a tick advances the index by one mod len; while not hovered nothing changes; the index stays in range |

## Left out

- The provider SDK calls are foreign network calls. Each is an abstract
  function from the request the handler builds to a reply or an error. The
  OpenAI `temperature: 0.7` float is not part of the request.
- Prisma persistence is an external store. It is modelled as a table of
  records, with write acceptance as a parameter and the record's position as
  its id. The store's own id generator and its column schema are not modelled.
- The zod `email()` check is an opaque parameter, `isEmail`. Unknown keys that
  zod strips from a parsed body are not modelled.
- ContactRoute.Parse: string lengths are counted in characters, where
  JavaScript counts UTF-16 code units. They differ only for characters outside
  the Basic Multilingual Plane.
- Environment variables appear only as the three optional keys checked by
  `AI.Initialise`.
- `console.log` and `console.error` output is I/O and is not modelled.
- Rendering, animation, icons, toast styling, the theme, and the hero, about,
  experience, footer, navbar and layout components are presentational and not
  modelled.
- Timers, the DOM scroll effect, `scrollToBottom` and `cn` are not modelled.
  Timers become explicit `Tick` methods. The scroll effect only moves the
  viewport, and `cn` only joins class names.
- Overlapping `handleSend` calls, and the order in which their responses
  arrive, are concurrency. They are outside the sequential model:
  `AIAssistant.Exchange` covers one send at a time.
- `createdAt` timestamps, message ids and locale time formatting are clock
  reads and are not modelled.
- AIAssistant.FinishSend: a reply body that parses but has no `message` field
  would append an assistant message with undefined content. The model reads
  such a body as unreadable and appends nothing. The chat endpoint never sends
  a 200 without `message`.
- ContactForm.ContactSection.PressSubmit: it models a click on the submit
  button, which does nothing while the button is disabled. Submitting with the
  Enter key during a submission, and react-hook-form's own submit state, are not
  modelled.
- Projects.ImageSlider.constructor requires at least one image. With no images,
  the first render reads a field of `images[0]`, which is undefined, and
  throws; a tick would also compute `1 % 0`, which is NaN.
- The selection of which project card is hovered (`hoveredProject`) is not
  modelled. Each slider gets its hovered flag through `SetHovered`.
- A request body that is not JSON is modelled as an absent body, which both
  endpoints answer with 500.
- ChatRoute.Handle: a chat body whose `content` is absent or not a string, or
  whose `modelId` is present but not a string, is not represented. Such a
  value would be handed unchecked to the store and to the provider SDKs, whose
  handling of it is code outside this model. An absent `modelId` is modelled.
- AI.Initialise is not a precondition of `AI.Dispatch`: the upstream services
  are parameters that do not depend on the keys. The model does not show that
  a failed module initialisation makes every dispatch unreachable.
