# rr-aisdk-v5 chat relay: a Dafny model of its core

This project models the core of a small chat application built with React Router
and the AI SDK:

- **The CORS guard** (`app/lib/cors.ts`). It covers:
  - the default configuration, whose origin list can be extended by the `ALLOWED_ORIGINS` environment variable;
  - the origin check, which is more permissive for localhost during development;
  - building the CORS header record;
  - the preflight and refusal answers of `handleCORS`;
  - adding the CORS headers to an existing response;
  - the JSON error response.
- **The model registry** (`app/lib/model-list.ts`): the six models offered, in display order, and the default model id.
- **The chat API route** (`app/routes/api/chat.ts`):
  - `action` runs the CORS gate first. It then parses the body and resolves the requested model id against the registry, with a fallback to the default. An unknown id gets a 400. Otherwise the message conversion runs and the provider switch picks the SDK call and its options. The streamed response then gets the CORS headers, and anything thrown becomes a 500.
  - `loader` answers preflights, refuses foreign origins and answers 405 to everything else.
- **The model selector**, in both its variants:
  - `app/components/model-selector.tsx` and `app/components/ModelSelector.tsx` share most of their logic: which entry is shown as selected, how the `reduce` groups entries by provider, how a group is labelled, and what choosing an entry hands back to the page.
  - The hand-built dropdown in `ModelSelector.tsx` also keeps an `isOpen` flag. It is modelled as a class whose methods are the component's event handlers.

## Modules

- `wrappers.dfy` (`Wrappers`): `Option` and `Result`.
- `text.dfy` (`Text`): the JavaScript built-ins the core relies on, with their round trips:
  - `split`, `trim` and `join`;
  - `toString` on integers;
  - the string escaping of `JSON.stringify`;
  - ASCII case mapping.
- `cors.dfy` (`Cors`): `cors.ts`.
  - `NODE_ENV` and `ALLOWED_ORIGINS` are parameters.
  - A plain header record (`Record<string, string>`) is a sequence of name/value pairs in insertion order.
  - A Fetch `Headers` object is a map keyed by the lower-cased header name.
  - `createCORSHeaders`, `addCORSHeaders` and `createCORSErrorResponse` are methods. Each is proved equal to a specification function (`CorsHeaders`, `WithCORS`, `ErrorResponse`), and the properties are proved about those functions.
- `model_list.dfy` (`ModelList`): the registry and lookup by id (`Array.prototype.find`).
- `chat_route.dfy` (`ChatRoute`): `action` and `loader`.
  - The language-model SDK is replaced by what the route hands to it: a `DispatchPlan` holding the provider, the provider's model id, the tools and the Google `includeThoughts` option.
  - The message conversion is a parameter that either succeeds or throws. The streaming call is a function parameter that returns a response or throws.
- `model_selector.dfy` (`ModelSelector`): the logic both selector components share.
  - The `reduce` is a method with a loop over a map and the order of its keys.
  - It is proved against two specification functions: `ProviderOrder`, the provider keys in order of first occurrence, and `ModelsOf`, the entries of one provider in list order.
- `model_selector_dropdown.dfy` (`ModelSelectorDropdown`): the open/closed state of the hand-built dropdown, and the menu the registry produces.

Behaviour worth noting:

- The 403 answer to a refused origin is the plain-text body `Unauthorized origin` with `Content-Type: text/plain` (`cors.ts:90-96`), not a JSON `{ "error": … }` body.
- A request with no `Origin` header or an empty one is allowed (`cors.ts:33-36`). In development, any `http(s)://localhost[:port]` origin is allowed as well (`cors.ts:39-44`).
- The route falls back to the default model only when `modelId` is missing or empty. An id that is present but unknown gets a 400 (`chat.ts:24-29`). The selector components, by contrast, show the default entry for an unknown id (`model-selector.tsx:20-22`).
- Anthropic requests get no tools (`chat.ts:57-62`). OpenAI and Google requests get the current-time tool.

## Model

| member | source | states |
|---|---|---|
| `Text.Split` | app/lib/cors.ts:21 | `split(",")` yields at least one piece, and no piece contains the separator |
| `Text.JoinSplit` | app/lib/cors.ts:21 | joining the pieces of a split with the separator gives back the original string: splitting loses nothing |
| `Text.SplitJoin` | app/lib/cors.ts:21 | splitting a join of separator-free parts gives back exactly those parts |
| `Text.Trim` | app/lib/cors.ts:21 | `trim` returns a contiguous slice of its input. Everything before it and after it is white space, and it neither starts nor ends with white space |
| `Text.IntToStringRoundTrip` | app/lib/cors.ts:71 | `maxAge.toString()` parses back to the number it came from |
| `Text.JsonRoundTrip` | app/lib/cors.ts:145 | decoding the JSON string escaping of any text gives back the text |
| `Text.JsonEscapePlain` | app/lib/cors.ts:145 | text without quotes, backslashes or control characters is written unchanged |
| `Cors.DefaultConfig` | app/lib/cors.ts:16-27 | the allowed origins are the three local origins, then the trimmed comma-separated entries of `ALLOWED_ORIGINS`. The configuration also holds methods `POST, GET, OPTIONS`, the three allowed headers, a max age of 86400 and credentials on |
| `Cors.ExtraOriginsAllowed` | app/lib/cors.ts:21 | every trimmed entry of `ALLOWED_ORIGINS` is an allowed origin in every environment |
| `Cors.ExtraOriginsShape` | app/lib/cors.ts:21 | each extra origin holds no comma and has no white space at either end |
| `Cors.IsOriginAllowed` | app/lib/cors.ts:32-47 | a missing or empty origin is allowed. Otherwise an origin is allowed exactly when it is listed, or, in development, also when it matches the localhost pattern |
| `Cors.ListedAllowed` | app/lib/cors.ts:46 | a listed origin is allowed whatever `NODE_ENV` is |
| `Cors.DevelopmentWidens` | app/lib/cors.ts:38-44 | development only widens the allowed set: an origin allowed elsewhere is allowed there too |
| `Cors.LocalhostPattern` | app/lib/cors.ts:41 | the localhost pattern accepts `http://localhost`, `https://localhost:8443` and `http://localhost:5173`. It rejects a bare colon, a longer host name, an IP address and a different scheme |
| `Cors.AllowOriginCases` | app/lib/cors.ts:58-64 | the `Access-Control-Allow-Origin` value is absent exactly when the origin is refused. It is `*` for a missing or empty origin and echoes an allowed origin |
| `Cors.CorsNamesDistinct` | app/lib/cors.ts:60-75 | the five CORS header names differ even ignoring case, and `Content-Type` is none of them |
| `Cors.CorsHeadersAt` | app/lib/cors.ts:52-79 | the value the CORS record holds for each header name: the allow-origin value, the joined methods and headers, max-age only when configured, credentials only when on. It holds nothing for any other name |
| `Cors.CorsHeadersValues` | app/lib/cors.ts:58-76 | the values of the five CORS headers in the record |
| `Cors.CorsHeadersDistinct` | app/lib/cors.ts:56-76 | the record never holds the same header name twice |
| `Cors.CorsHeadersAbsent` | app/lib/cors.ts:56-76 | the record has no value for any name other than the five CORS names |
| `Cors.CreateCORSHeaders` | app/lib/cors.ts:52-79 | the method that fills the record builds exactly the record whose contents `CorsHeadersAt` states |
| `Cors.HeadersOf` | app/lib/cors.ts:145-150 | a `Headers` object built from a record without repeated names reads back every value of the record |
| `Cors.Merge` | app/lib/cors.ts:122-127 | after `set`ting each record entry on a copy of the headers, each name holds the record's value if it has one and the original value otherwise |
| `Cors.HandleCORS` | app/lib/cors.ts:84-108 | a refused origin gets 403 whatever the method. An allowed `OPTIONS` gets 204 with no body, the allow-origin value, the joined methods and headers, max-age when configured and credentials when on. Any other allowed request continues (`null`) |
| `Cors.DevServerPreflight` | app/lib/cors.ts:99-104 | with the default options, a preflight from `http://localhost:5173` gets 204. It echoes the origin, allows `POST, GET, OPTIONS`, has max age `86400` and allows credentials |
| `Cors.ForeignOriginRefused` | app/lib/cors.ts:88-96 | with the default options and `ALLOWED_ORIGINS` unset, `http://evil.example` is refused with 403 in every environment and for every method |
| `Cors.WithCORS` | app/lib/cors.ts:113-134 | status, status text and body are kept. Every non-CORS header is kept. The CORS headers take their record values, and where the record has none the original value is kept |
| `Cors.AddCORSHeaders` | app/lib/cors.ts:113-134 | the loop of `headers.set` calls produces exactly the response `WithCORS` describes |
| `Cors.ErrorBodyRoundTrip` | app/lib/cors.ts:145 | the JSON error body carries exactly the message |
| `Cors.ErrorResponse` | app/lib/cors.ts:139-152 | the status is the one given, or 500 by default, with an empty status text. The body is `{"error": message}` and its message reads back. `Content-Type` is `application/json`. The CORS headers are those of the guard: `Access-Control-Allow-Origin` is the value the origin rule gives, or absent when it gives none; methods and headers are the configured lists joined with ", "; `Access-Control-Max-Age` is `maxAge` as text when set, otherwise absent; `Access-Control-Allow-Credentials` is `true` when credentials are allowed, otherwise absent |
| `Cors.CreateCORSErrorResponse` | app/lib/cors.ts:139-152 | the method builds exactly the response `ErrorResponse` describes |
| `ModelList.ProviderKey` | app/lib/model-list.ts:3 | a provider key is never empty |
| `ModelList.ProviderKeyInjective` | app/lib/model-list.ts:3 | different providers have different keys |
| `ModelList.FindIndex` | app/routes/api/chat.ts:25 | `find` stops at the first entry with exactly that id, and finds nothing exactly when no entry has it |
| `ModelList.FindEntry` | app/lib/model-list.ts:7-43 | with unique ids, looking up an entry's id finds that entry |
| `ModelList.RegistryIdsDistinct` | app/lib/model-list.ts:7-43 | the registry's ids are unique |
| `ModelList.DefaultRegistered` | app/lib/model-list.ts:45 | the default id is registered: it finds the `gemini-2.5-flash` entry served by Google |
| `ModelList.NoMistralEntry` | app/lib/model-list.ts:7-43 | no registry entry names the Mistral provider |
| `ModelList.LookupIsById` | app/lib/model-list.ts:14-18 | lookup uses the user-facing id: `gpt-4.1` finds the entry served as `gpt-4-turbo`, and `gpt-4-turbo` finds nothing |
| `ModelList.RegistryGroupedByProvider` | app/lib/model-list.ts:7-43 | entries are sorted by provider (OpenAI, Google, Anthropic), and each provider's entries are contiguous |
| `ChatRoute.ThrownMessage` | app/routes/api/chat.ts:76 | an `Error` reports its message; anything else reports `Internal server error` |
| `ChatRoute.SelectedModelId` | app/routes/api/chat.ts:24 | the selected id is never empty. It is the given id when that is non-empty, and the default otherwise |
| `ChatRoute.PlanFor` | app/routes/api/chat.ts:37-69 | every provider except Mistral is dispatched with its provider model id. OpenAI and Google get the current-time tool and Anthropic gets none. Only Google gets `includeThoughts: true`. Any other provider fails with `Unsupported provider: <key>` |
| `ChatRoute.Resolve` | app/routes/api/chat.ts:20-69 | past the CORS gate, a request fails with 400 or 500 or is dispatched. A dispatch happens only for a parsed body and a successful conversion, and the provider and model id are those of the registry entry for the selected id. The dispatched plan is the one the provider switch builds for that entry, so its tools and `includeThoughts` follow the provider |
| `ChatRoute.Decide` | app/routes/api/chat.ts:14-18 | a refused origin gets the 403 answer; a preflight from an allowed origin gets the 204 preflight answer; any other method from an allowed origin is resolved from its body |
| `ChatRoute.FindFound` | app/routes/api/chat.ts:25 | an entry `find` returns has the id looked for and belongs to the list |
| `ChatRoute.Action` | app/routes/api/chat.ts:10-81 | `action` returns the response for its decision. The plan handed to the SDK is present exactly when the request is dispatched, and is that plan |
| `ChatRoute.Loader` | app/routes/api/chat.ts:84-94 | the loader answers only 403, 204 or 405. 403 happens exactly when the origin is refused, and 405 exactly when it is allowed and the method is not `OPTIONS`. The 405 body is `{"error":"Method not allowed"}`. A refused origin gets exactly the guard's 403 answer, and an allowed preflight its 204 answer with the CORS headers. The 405 is exactly the JSON error response `createCORSErrorResponse` builds, so it also carries the CORS headers |
| `ChatRoute.RefusedBeforeParsing` | app/routes/api/chat.ts:15-18 | a refused origin gets the 403 answer whatever the body, the model and the SDK do |
| `ChatRoute.ThrownIs500` | app/routes/api/chat.ts:73-80 | a body that fails to parse, or a conversion that throws, fails with 500 and the thrown message |
| `ChatRoute.MissingModelUsesDefault` | app/routes/api/chat.ts:24-56 | a missing or empty `modelId` dispatches `gemini-2.5-flash` to Google with the current-time tool and `includeThoughts: true` |
| `ChatRoute.RegisteredModelDispatched` | app/routes/api/chat.ts:25-62 | every registered id is dispatched to its provider under its provider model id, with the plan the provider switch builds for its entry |
| `ChatRoute.RenamedModelsDispatched` | app/lib/model-list.ts:14-18 | `gpt-4.1` is dispatched to OpenAI as `gpt-4-turbo` with the current-time tool, and `claude-4.0-sonnet` to Anthropic as `claude-4-sonnet-20240229` with no tools |
| `ChatRoute.OnlyUnknownModelIs400` | app/routes/api/chat.ts:27-29 | with the registry, a 400 arises only from an unregistered id, with the message `Model <id> not found` |
| `ChatRoute.UnknownModelBody` | app/routes/api/chat.ts:28 | the message for an unknown id is written into the JSON body without escapes |
| `ChatRoute.UnknownModelRejected` | app/routes/api/chat.ts:25-29 | an unregistered non-empty id fails with 400 and `Model <id> not found` before the conversion matters |
| `ChatRoute.UnknownModelUnregistered` | app/lib/model-list.ts:7-43 | `unknown-model` is not a registry id |
| `ChatRoute.UnknownModelResponse` | app/routes/api/chat.ts:27-29 | the response to an unregistered id is the CORS error response with status 400, and its body reads back as `Model <id> not found` |
| `ChatRoute.LoaderOutcomes` | app/routes/api/chat.ts:84-94 | for an allowed origin, `OPTIONS` gets 204 and `GET` gets 405 |
| `ModelSelector.SelectedModel` | app/components/model-selector.tsx:20-25 | the selected entry is the entry with the selected id, or else the default entry. Failure with `Model <id> not found` happens exactly when neither exists |
| `ModelSelector.SelectionNeverThrows` | app/components/model-selector.tsx:20-25 | with the registry the selection never throws, and an unregistered id shows the default entry |
| `ModelSelector.ProviderOrder` | app/components/model-selector.tsx:27-33 | there are never more provider groups than entries |
| `ModelSelector.ProviderOrderDistinct` | app/components/model-selector.tsx:27-33 | each provider key is listed once |
| `ModelSelector.ModelsOf` | app/components/model-selector.tsx:27-33 | a provider's group holds only entries of that provider, and no more entries than the list |
| `ModelSelector.ModelsOfMembers` | app/components/model-selector.tsx:27-33 | a group holds only entries of the list |
| `ModelSelector.ThreeBlockOrder` | app/components/model-selector.tsx:27-33 | a list made of three single-provider blocks for different providers is grouped as those three providers in block order |
| `ModelSelector.ThreeBlockGroups` | app/components/model-selector.tsx:27-33 | in such a list, each provider's group is exactly its block |
| `ModelSelector.GroupModels` | app/components/model-selector.tsx:27-33 | the `reduce` yields one group per provider, in order of first occurrence. Each group holds exactly that provider's entries in list order |
| `ModelSelector.GroupsNonEmpty` | app/components/model-selector.tsx:27-33 | every group has at least one entry |
| `ModelSelector.EntryInOwnGroup` | app/components/model-selector.tsx:27-33 | every entry's provider has a group, and the entry is in it |
| `ModelSelector.GroupSizesSum` | app/components/model-selector.tsx:27-33 | the group sizes add up to the number of entries, so the groups partition the list |
| `ModelSelector.ModelsOfPrefix` | app/components/model-selector.tsx:27-33 | later entries only append to a group, so earlier groups are prefixes |
| `ModelSelector.ProviderOrderPrefix` | app/components/model-selector.tsx:27-33 | later entries only append providers, so groups appear in order of first occurrence |
| `ModelSelector.ProviderLabel` | app/components/model-selector.tsx:36-48 | the three known keys get `OpenAI`, `Google` and `Anthropic`. Any other key keeps its length and its tail, and has its first letter upper-cased |
| `ModelSelector.LabelStartsUpper` | app/components/model-selector.tsx:36-48 | a label never starts with a lower-case ASCII letter |
| `ModelSelector.HandleModelSelect` | app/components/model-selector.tsx:50-52 | choosing an entry makes exactly one `onModelChange` call, carrying the chosen id |
| `ModelSelector.ChoiceShowsEntry` | app/components/model-selector.tsx:20-71 | choosing any entry of any menu group, and showing the id it hands back as the selection, shows that same entry |
| `ModelSelectorDropdown.Transitions` | app/components/ModelSelector.tsx:52-71 | the trigger toggles the menu. The backdrop, Escape and choosing an entry close it. Any other key leaves it unchanged |
| `ModelSelectorDropdown.ToggleParity` | app/components/ModelSelector.tsx:52 | `n` clicks on the trigger leave the menu unchanged exactly when `n` is even |
| `ModelSelectorDropdown.ClosedAfterClosing` | app/components/ModelSelector.tsx:43-71 | whatever happened before, the menu is closed after a closing event |
| `ModelSelectorDropdown.Dropdown.constructor` | app/components/ModelSelector.tsx:11 | the menu starts closed, with nothing handed to the page |
| `ModelSelectorDropdown.Dropdown.ClickTrigger` | app/components/ModelSelector.tsx:52 | the trigger flips `isOpen` and hands nothing to the page |
| `ModelSelectorDropdown.Dropdown.ClickBackdrop` | app/components/ModelSelector.tsx:66 | a click on the backdrop closes the menu and hands nothing to the page |
| `ModelSelectorDropdown.Dropdown.PressKey` | app/components/ModelSelector.tsx:67-71 | Escape closes the menu, and any other key changes nothing |
| `ModelSelectorDropdown.Dropdown.SelectModel` | app/components/ModelSelector.tsx:43-46 | choosing an entry hands its id to the page once, then closes the menu |
| `ModelSelectorDropdown.RegistryMenu` | app/components/ModelSelector.tsx:20-26 | the registry menu lists OpenAI, Google, then Anthropic. Each group holds its provider's two models in registry order |
| `ModelSelectorDropdown.RegistryLabels` | app/components/ModelSelector.tsx:29-41 | the group headings of the registry are `OpenAI`, `Google` and `Anthropic`. The key `mistral`, which no registry entry uses, would be labelled `Mistral` |

## Left out

- Logging: the `console.log`, `console.warn` and `console.error` calls have no effect on any answer and are not modelled.
- The language-model SDK is left out:
  - `convertToModelMessages`, `streamText` and `toUIMessageStreamResponse` are parameters: a conversion outcome and a streaming function that returns a response or throws.
  - The chat messages, their conversion and the streamed content are not modelled.
  - The provider factories (`openai`, `google`, `anthropic`) are represented only by the provider in the `DispatchPlan`.
- The current-time tool is a single `Tool` value. Its implementation, `app/routes/api/tools.ts`, is not part of this model.
- The environment and the request are reduced to what the core reads:
  - `process.env.NODE_ENV` and `process.env.ALLOWED_ORIGINS` are parameters.
  - A request is reduced to its method, its `Origin` header and the parsed body, or the value parsing throws.
  - The body is reduced to an optional string `modelId`. A `modelId` of another JSON type (a number, `true`) is not modelled.
- The Fetch API is simplified:
  - `Headers` is a map from the lower-cased name to a value.
  - Header name and value validation, the `TypeError`s it raises and the iteration order of headers are not modelled.
  - The `Response` constructor's status-range check is not modelled: the route only uses the constant statuses 204, 400, 403, 405 and 500, plus whatever the streaming function returns.
- `Text.IntToString` covers integers only, and always writes plain decimal digits. `maxAge` is a JavaScript number: a non-integer value is not modelled, nor is the exponent form JavaScript uses from 10^21 on (`1e+21`), nor the loss of exactness beyond 2^53. The default `maxAge` of 86400 reaches none of these.
- Strings are sequences of Unicode code points. JavaScript's UTF-16 code units and the escaping of lone surrogates by `JSON.stringify` are not modelled.
- `ModelSelector.ProviderLabel` upper-cases only the ASCII letters `a`-`z`. JavaScript's `toUpperCase` also maps other letters, and can lengthen a string (`ß` becomes `SS`); the model leaves that out. Registry keys are ASCII.
- `ModelSelector.GroupModels` lists keys in insertion order, as `Object.entries` does for keys that are not array indices. The special ordering of integer-like keys does not arise, because provider keys are never integer-like.
- Rendering is not modelled: JSX, CSS classes, ARIA attributes, the highlighted selected entry and the chevron rotation. The menu is modelled as its groups and entries.
- The open state of the library dropdown in `app/components/model-selector.tsx` belongs to the UI library and is not modelled.
- `ModelSelectorDropdown.Dropdown` accepts backdrop, key and choice events in any state. The component only renders those elements while the menu is open; closing is idempotent, so the extra states change nothing. React's re-rendering and state batching are not modelled.
