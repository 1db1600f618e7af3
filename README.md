# MoStar Grid: the edge functions and the front-end cores, in Dafny

This project models the request logic of the MoStar Grid's three Supabase edge functions: `signal`, `diagnose` and `evaluate`. Each one validates a JSON body with a Zod schema and proxies it to an upstream FastAPI service (executor, assessor or judge). The caller only ever gets a fixed, safe error vocabulary. `signal` also writes a best-effort `grid_signals` row. The project also models the deterministic cores of four front-end components:

- the MoStar agent graph, with its nodes, links and link colours;
- the sign-in / sign-up form;
- the globe's region lookup and neural links;
- the music player's URL-fragment token handling, track choice and play toggle.

Modules, one file each:

- `Wrappers` holds `Option`.
- `Json` holds the JSON values that `req.json()` / `response.json()` produce, and property access on them.
- `Http` holds `new Response(...)`, including the cases where the Fetch Standard's constructor throws.
- `JsText` holds the JavaScript string operations used: `startsWith`, `includes`, `split`, and number-to-string.
- `Zod` is an interpreter for the Zod 3.22 schemas used:
  - strings with bounds and a pattern;
  - arrays with bounds;
  - `z.record(z.any())`;
  - `.optional()` and `.default()`;
  - objects, either stripping or keeping (`.passthrough()`) unknown keys.
- `EdgeProxy` holds what the three functions share: the request id, `getSafeErrorMessage`, the status mapping and the `catch` answer. It also holds the whole handler of the two pass-through functions.
- `Diagnose`, `Evaluate` and `Signal` hold the three endpoints.
- `NetworkGraph`, `Auth`, `MapboxGlobe` and `MusicPlayer` hold the front-end cores.

Inputs take the place of the I/O:

- The outcome of reading the request body is `BodyRead`.
- The upstream reply is `Upstream`: unreachable, or a status plus JSON-or-not.
- The database insert is `InsertOutcome`.
- The UUID behind the request id is a string.
- `Math.random()` is a stream `rand: nat -> real` of values in [0, 1).
- The email check of `Auth.tsx` is a predicate `validEmail`.
- The backend's answer to `signIn`/`signUp` is an optional error message.
- The browser's location hash, `localStorage` and the settling of the Spotify play request are an input or a field each.

Behaviours of the code that are easy to mistake, and that the model keeps as written:

- `signal` does not forward unknown fields: its schema is a plain `z.object`, which strips them. It forwards exactly `{location, symptoms, evidence}` (supabase/functions/signal/index.ts:11-15, 56-62).
- An upstream error status that `new Response` refuses makes the constructor throw. These are a status below 200, and 304 with a body. The `catch` then answers 503, not the upstream status (supabase/functions/signal/index.ts:68-74).
- An upstream `null` JSON result makes `result.location` throw in `signal`. The `catch` answers 503 (supabase/functions/signal/index.ts:77-88).
- A request body that is not JSON gives 503, not 400, because `req.json()` throws inside the `try` (supabase/functions/signal/index.ts:40-41, 104-116).

## Model

| member | source | states |
|---|---|---|
| Json.Property | supabase/functions/signal/index.ts:88-93 | `result.key` on a non-null value is present exactly when the value is an object owning that key, and is then that member |
| Json.Member | supabase/functions/diagnose/index.ts:10-15 | a member reads as present exactly when the object owns the key, and is then that value; otherwise `undefined` |
| Http.NewResponse | supabase/functions/signal/index.ts:68-74 | the response exists iff the status is in 200..599 and it is not a null-body status (101, 103, 204, 205, 304) carrying a body; otherwise the constructor throws |
| JsText.IncludesAt | src/pages/Auth.tsx:75 | `s.includes(p)` holds iff `p` occurs at some index of `s` |
| JsText.Split | src/components/hub/MusicPlayer.tsx:53-54 | `split(sep)` gives at least one piece, no piece holds the separator, joining the pieces gives back the text, and there is one more piece than separators |
| JsText.SplitJoin | src/components/hub/MusicPlayer.tsx:53-54 | splitting what was joined gives back the pieces when no piece holds the separator |
| JsText.NatToString | src/components/NetworkGraph.tsx:102-103 | the decimal rendering is non-empty and ends in the last digit |
| JsText.NatToStringInjective | src/components/NetworkGraph.tsx:102 | different indices give different `data-${i}` renderings |
| Zod.Parse | supabase/functions/signal/index.ts:11-15 | an accepted present value yields a present output; `null` is rejected by every schema used, `.optional()` included |
| Zod.ParseItems | supabase/functions/signal/index.ts:13 | an array's parsed output has as many elements as its input |
| Zod.ParseFields | supabase/functions/diagnose/index.ts:10-15 | the parsed known members are among the declared keys |
| Zod.Unknown | supabase/functions/diagnose/index.ts:15 | the members kept by `.passthrough()` are exactly the undeclared keys |
| Zod.PreservingParse | supabase/functions/diagnose/index.ts:10-15 | a schema with no default and no stripping returns its input unchanged when it accepts, unknown keys included |
| Zod.StringItems | supabase/functions/signal/index.ts:13 | an array of strings is accepted element-wise iff every element is a string within the bounds and pattern, and is returned unchanged |
| Zod.ObjectItems | supabase/functions/signal/index.ts:14 | an array of `z.record(z.any())` is accepted iff every element is an object |
| Zod.FieldsAccepted | supabase/functions/signal/index.ts:11-15 | an object's declared fields all parse iff each declared member parses |
| Zod.OptionalString | supabase/functions/diagnose/index.ts:11-12 | an optional bounded string accepts exactly an absent member or a string within the bounds |
| Zod.OptionalStrings | supabase/functions/diagnose/index.ts:13 | an optional array of bounded strings accepts exactly an absent member or an array of at most n strings within bounds, the empty array included |
| Zod.OptionalRecord | supabase/functions/diagnose/index.ts:14 | an optional record accepts exactly an absent member or an object |
| EdgeProxy.RequestId | supabase/functions/signal/index.ts:21-23 | the id is a prefix of the UUID, eight characters long for any UUID of at least eight |
| EdgeProxy.SafeErrorMessage | supabase/functions/signal/index.ts:26-31 | the 429 text iff 429, the 402 text iff 402, "Service temporarily unavailable." iff status ≥ 500, the generic text otherwise; always a vocabulary text |
| EdgeProxy.CallerStatus | supabase/functions/signal/index.ts:73 | every 5xx becomes 503 and every other status is kept |
| EdgeProxy.Unavailable | supabase/functions/signal/index.ts:104-116 | the `catch` answer is a 503 safe error carrying the request id |
| EdgeProxy.InvalidInput | supabase/functions/signal/index.ts:44-54 | a rejected body gets a 400 safe error with the fixed "invalid input" text and the request id |
| EdgeProxy.UpstreamFailure | supabase/functions/signal/index.ts:65-75 | an upstream error is always a safe error. A status ≥ 500 gives 503 "Service temporarily unavailable."; 300–499 except 304 keeps the status with its safe text; below 200 or 304 makes the constructor throw, giving the 503 `catch` answer |
| EdgeProxy.Success | supabase/functions/diagnose/index.ts:77-81 | a JSON result is returned verbatim with status 200 |
| EdgeProxy.Relay | supabase/functions/diagnose/index.ts:59-94 | an unreachable upstream or a non-JSON ok reply gives 503; an error status gives the upstream failure; a JSON ok reply gives the result |
| EdgeProxy.HandlePassthrough | supabase/functions/diagnose/index.ts:33-95 | OPTIONS gets the preflight before anything else; an unreadable body gets 503; a rejected body gets 400 with nothing forwarded; an accepted body is forwarded as Zod returned it; no response discloses anything beyond the result or a vocabulary text |
| Diagnose.AcceptsExactly | supabase/functions/diagnose/index.ts:10-15 | the schema accepts exactly the bodies whose present fields meet their bounds (`signal_id` ≤ 100, `location` 1–100, ≤ 20 symptoms of 1–200, `data` an object) and returns them unchanged, unknown keys included |
| Diagnose.EmptyBodyAccepted | supabase/functions/diagnose/index.ts:10-15 | `{}` is accepted |
| Diagnose.Handle | supabase/functions/diagnose/index.ts:33-95 | the handler stated in terms of well-formedness: 400 and nothing sent for an ill-formed body, the whole body forwarded otherwise |
| Evaluate.AcceptsExactly | supabase/functions/evaluate/index.ts:10-15 | the schema accepts exactly the objects whose present `signal_id` has ≤ 100 chars and whose present `assessment`, `context`, `data` are objects, and returns them unchanged |
| Evaluate.Handle | supabase/functions/evaluate/index.ts:33-95 | as for `diagnose`, with the evaluate schema |
| Signal.LocationField | supabase/functions/signal/index.ts:12 | `location` is accepted iff it is a string of 1–100 characters, each a letter, digit, `-`, `_` or ECMAScript whitespace |
| Signal.SymptomsField | supabase/functions/signal/index.ts:13 | `symptoms` is accepted iff it is an array of 1–20 strings of 1–200 characters |
| Signal.EvidenceField | supabase/functions/signal/index.ts:14 | absent `evidence` becomes `[]`; present `evidence` is accepted iff it is an array of at most 50 objects |
| Signal.EvidenceOf | supabase/functions/signal/index.ts:14 | the evidence is the member, or `[]` when absent |
| Signal.Payload | supabase/functions/signal/index.ts:56-62 | the forwarded body has exactly the keys `location`, `symptoms`, `evidence` |
| Signal.AcceptsExactly | supabase/functions/signal/index.ts:11-15 | the schema accepts exactly the well-formed bodies, and returns the three known members with evidence defaulted, unknown keys stripped |
| Signal.KnownMembers | supabase/functions/signal/index.ts:11-15 | for a well-formed body the declared part the schema returns is exactly the payload |
| Signal.PayloadRevalidates | supabase/functions/signal/index.ts:56-62 | the forwarded payload is well-formed and validating it again returns it unchanged |
| Signal.LogRecord | supabase/functions/signal/index.ts:85-94 | the row takes location, odu, assessor hash, root cause and action from the upstream result and symptoms from the request |
| Signal.Restate | supabase/functions/signal/index.ts:56-62 | the re-serialised body holds only `location`, `symptoms`, `evidence` |
| Signal.Handle | supabase/functions/signal/index.ts:33-117 | OPTIONS gets the preflight. An unreadable body gets 503. An ill-formed body gets 400 with nothing sent. A well-formed one is forwarded as the payload; then a JSON non-null ok result is returned verbatim with its row built, an error status gives the upstream failure, and anything else gives 503. The row is stored iff it was built and the insert succeeded; no response discloses upstream text |
| Signal.InsertNeverChangesResponse | supabase/functions/signal/index.ts:96-101 | the response is the same whether the insert succeeds or fails |
| NetworkGraph.Pick | src/components/NetworkGraph.tsx:132-135 | `Math.floor(Math.random() * n)` is an index below n |
| NetworkGraph.GenerateNodes | src/components/NetworkGraph.tsx:80-111 | the twelve agents in order with their id, name, colour, `val = size` and `group = layer`; then thirty data nodes, node i with id `data-i`, name `Data Stream i+1`, group `data`, its layer from draw 2i, its value from draw 2i+1 and so in [1, 3), and its layer's colour at alpha `80` |
| NetworkGraph.AgentNodes | src/components/NetworkGraph.tsx:147 | the agents are exactly the nodes whose id does not start with `data-` |
| NetworkGraph.FindNode | src/components/NetworkGraph.tsx:174-175 | a node is found iff some node has the id; the one found has that id and every node before it has another id, so it is the first match |
| NetworkGraph.ConnectionColor | src/components/NetworkGraph.tsx:173-187 | `#FFFFFF20` iff an end is missing; `#FFFFFF40` iff both exist in different layers; the source colour plus `60` when both share a layer |
| NetworkGraph.FindLink | src/components/NetworkGraph.tsx:154-157 | a link is found iff some link joins the two agents in either direction |
| NetworkGraph.Without | src/components/NetworkGraph.tsx:150 | the other agents are the agents with the one at the index removed, in order |
| NetworkGraph.AddCoreLinks | src/components/NetworkGraph.tsx:117-125 | the fifteen core connections become links in order, with `value = strength` and the connection colour |
| NetworkGraph.NodeLinks | src/components/NetworkGraph.tsx:129-143 | one data node draws its count (one to three) and then one agent per link; each link leaves it at 0.5 in its colour at alpha `40` for an agent, and the draws used are the count plus one |
| NetworkGraph.LinkDataNode | src/components/NetworkGraph.tsx:129-143 | the loop over one data node's links yields exactly the links and next draw of `NodeLinks`, so one to three links from it to agents |
| NetworkGraph.DataLinksPrefix | src/components/NetworkGraph.tsx:128-145 | the data links of the first m nodes are a prefix of those of the first n, m ≤ n |
| NetworkGraph.DataLinksTotal | src/components/NetworkGraph.tsx:128-145 | the data links number between one and three times the data nodes |
| NetworkGraph.DataLinksFrom | src/components/NetworkGraph.tsx:128-145 | every data link leaves one of the data nodes for an agent |
| NetworkGraph.DataLinksRun | src/components/NetworkGraph.tsx:128-145 | node n's links form one run, after those of the nodes before it: one to three links from it when it is a data node, none otherwise |
| NetworkGraph.DataLinksFacts | src/components/NetworkGraph.tsx:128-145 | over all nodes: the total bound, every link a data link, one run of one to three per data node in node order, and every data node linked |
| NetworkGraph.AddDataLinks | src/components/NetworkGraph.tsx:128-145 | the walk over the nodes yields the data links of the draws; node by node, each data node gets one run of one to three links from it to agents, other nodes none, so every data node is linked |
| NetworkGraph.NewExtraLink | src/components/NetworkGraph.tsx:150-166 | the link from an agent to one of the other agents is an extra link leaving that agent, and no self-loop when agent ids are distinct |
| NetworkGraph.ExtraStep | src/components/NetworkGraph.tsx:149-166 | one agent's turn adds at most one link, and it leaves that agent |
| NetworkGraph.ExtraStepAdds | src/components/NetworkGraph.tsx:149-166 | the turn adds the drawn link exactly when the roll exceeds 0.7 and no earlier link joins the pair in either direction, and nothing otherwise; it uses two draws after a winning roll, one after a losing one |
| NetworkGraph.ExtraTurn | src/components/NetworkGraph.tsx:149-166 | one agent's turn, with its roll, partner draw and duplicate search, yields exactly the links and next draw of `ExtraStep` |
| NetworkGraph.ExtraLinksPrefix | src/components/NetworkGraph.tsx:148-168 | the links of the first m agents' turns are a prefix of those of the first n |
| NetworkGraph.ExtraLinksLeave | src/components/NetworkGraph.tsx:148-168 | every link the turns of agents m..n−1 add leaves one of those agents |
| NetworkGraph.ExtraLinksFresh | src/components/NetworkGraph.tsx:148-168 | at most one link per turn; each is an extra link between agents at 0.3 in the connection colour, joins no pair already joined by an earlier link in either direction, and is no self-loop when agent ids are distinct |
| NetworkGraph.OneExtraLinkPerAgent | src/components/NetworkGraph.tsx:148-168 | with distinct agent ids, no two extra links leave the same agent |
| NetworkGraph.EarlierAgentsLinks | src/components/NetworkGraph.tsx:148-168 | no turn before agent a's adds a link leaving agent a |
| NetworkGraph.LaterAgentsLinks | src/components/NetworkGraph.tsx:148-168 | no turn after agent m−1's adds a link leaving agent m−1 |
| NetworkGraph.ExtraLinkDrawn | src/components/NetworkGraph.tsx:148-168 | an extra link leaves agent a exactly when its roll exceeds 0.7 and no earlier link joins it to the partner it draws, and that drawn link is then among the extra links |
| NetworkGraph.AddExtraLinks | src/components/NetworkGraph.tsx:147-168 | the walk over the agents yields the extra links of the draws; each is an extra link at 0.3 joining no pair already joined; with distinct ids no self-loop and at most one leaving each agent |
| NetworkGraph.MoStarLinksSize | src/components/NetworkGraph.tsx:114-171 | the total lies between 15 + the data nodes and 15 + 3·the data nodes + the agents |
| NetworkGraph.MoStarLinksCore | src/components/NetworkGraph.tsx:114-171 | the fifteen core links come first and in order |
| NetworkGraph.MoStarLinksKinds | src/components/NetworkGraph.tsx:114-171 | every later link is a data link or an extra link |
| NetworkGraph.MoStarLinksRuns | src/components/NetworkGraph.tsx:114-171 | after the core links, each data node has its one run of one to three links, in node order |
| NetworkGraph.MoStarLinksData | src/components/NetworkGraph.tsx:114-171 | every data node has a link |
| NetworkGraph.MoStarLinksFresh | src/components/NetworkGraph.tsx:114-171 | no extra link duplicates an earlier pair in either direction, and with distinct agent ids none is a self-loop |
| NetworkGraph.GenerateLinks | src/components/NetworkGraph.tsx:114-171 | the three phases yield exactly the links of the draws: core links first and in order, then data and extra links only, one run of one to three per data node, every data node linked, no extra link duplicating an earlier pair and none a self-loop, and the total within its bounds |
| NetworkGraph.AgentIdsAreNotData | src/components/NetworkGraph.tsx:32-52 | no agent id starts with `data-` |
| NetworkGraph.AgentIdsDistinct | src/components/NetworkGraph.tsx:32-52 | the twelve agent ids are pairwise distinct |
| NetworkGraph.DataIdsDistinct | src/components/NetworkGraph.tsx:91-102 | the thirty ids `data-0` .. `data-29` are pairwise distinct |
| NetworkGraph.GeneratedNodes | src/components/NetworkGraph.tsx:80-111 | the generated nodes' agents are the twelve agents with distinct ids, and thirty nodes are data nodes |
| NetworkGraph.GeneratedIdsDistinct | src/components/NetworkGraph.tsx:80-111 | no two generated nodes share an id, so `find` by id is unambiguous on the page |
| Auth.SignInErrorText | src/pages/Auth.tsx:74-79 | an error containing 'Invalid login credentials' is shown as 'Invalid email or password', any other verbatim |
| Auth.SignInTextHidesCredentials | src/pages/Auth.tsx:74-79 | the text shown for a failed sign-in never contains 'Invalid login credentials' |
| Auth.SignUpErrorText | src/pages/Auth.tsx:86-91 | an error containing 'already registered' is shown as the re-sign-in hint, any other verbatim |
| Auth.HintNamesCause | src/pages/Auth.tsx:87-88 | the re-sign-in hint itself contains 'already registered' |
| Auth.SignUpTextKeepsCause | src/pages/Auth.tsx:86-91 | the text shown contains 'already registered' iff the backend's message does |
| Auth.RedirectTarget | src/pages/Auth.tsx:28 | the target is the `from` path when present and non-empty, otherwise `/`; never empty |
| Auth.RedirectTargetStable | src/pages/Auth.tsx:28 | taking the target of a target changes nothing |
| Auth.AuthForm.constructor | src/pages/Auth.tsx:16-28 | the page opens in login mode with empty fields, no errors and the redirect target fixed |
| Auth.AuthForm.Edit | src/pages/Auth.tsx:155-197 | the inputs set the three fields and nothing else |
| Auth.AuthForm.ToggleMode | src/pages/Auth.tsx:256-259 | the mode flips and every error is cleared |
| Auth.AuthForm.ValidateForm | src/pages/Auth.tsx:37-62 | the email error iff the email check fails; the password error iff fewer than 6 characters; the mismatch error iff sign-up mode and the passwords differ; valid iff no error is recorded, iff the form is acceptable |
| Auth.AuthForm.HandleSubmit | src/pages/Auth.tsx:64-100 | the per-field messages of `validateForm` are recorded (email, password length, mismatch in sign-up mode) and are all clear iff submitted; nothing is submitted iff the form is not acceptable; otherwise the call matches the mode, success shows the mode's welcome and redirects, an error shows the mapped text and stays, and loading ends off |
| MapboxGlobe.CoordinatesFor | src/components/hub/MapboxGlobe.tsx:217-232 | a listed region gets its fixed coordinates, any other name `[0, 0]`; the result is on the globe |
| MapboxGlobe.OriginMeansUnknown | src/components/hub/MapboxGlobe.tsx:218-231 | a name lands at `[0, 0]` iff it is not a listed region |
| MapboxGlobe.CaseVariantIsUnknown | src/components/hub/MapboxGlobe.tsx:225-231 | 'africa' gets `[0, 0]` while 'Africa' gets `[18, -33]` |
| MapboxGlobe.LookupAsWritten | src/components/hub/MapboxGlobe.tsx:231 | indexing the object literal finds own coordinates iff the name is listed, and `undefined` only off the prototype's names |
| MapboxGlobe.CoordinatesAsWritten | src/components/hub/MapboxGlobe.tsx:231 | the lookup as written yields an inherited prototype member iff the name is an `Object.prototype` name that is not listed |
| MapboxGlobe.AsWrittenAgrees | src/components/hub/MapboxGlobe.tsx:231 | off the prototype's names the lookup as written agrees with `CoordinatesFor` |
| MapboxGlobe.InheritedNameEscapes | src/components/hub/MapboxGlobe.tsx:231 | for 'toString' the lookup as written yields the inherited function, where `[0, 0]` was meant |
| MapboxGlobe.MarkerColor | src/components/hub/MapboxGlobe.tsx:66-67 | `#00ff80` iff the status is 'Active', `#ff00ff` otherwise |
| MapboxGlobe.NeuralLinks | src/components/hub/MapboxGlobe.tsx:93-103 | no links iff at most one node; otherwise n−1 links, link i from node i's coordinates to node i+1's, each link starting where the previous one ends |
| MusicPlayer.Fragment | src/components/hub/MusicPlayer.tsx:53 | the first character of the hash is dropped |
| MusicPlayer.ReduceKeys | src/components/hub/MusicPlayer.tsx:53-57 | the parsed keys are exactly the keys of the pieces, except `__proto__`, which a plain object's setter swallows |
| MusicPlayer.ReduceLastWins | src/components/hub/MusicPlayer.tsx:55-56 | a key holds the value of its last piece |
| MusicPlayer.ParseHash | src/components/hub/MusicPlayer.tsx:53-57 | the `reduce` loop computes the parsed fragment |
| MusicPlayer.ExtraSegmentsDropped | src/components/hub/MusicPlayer.tsx:54 | in `key=value=more` the key is `key` and the value is `value`; later segments are dropped |
| MusicPlayer.ChooseToken | src/components/hub/MusicPlayer.tsx:58-65 | the hash's `access_token` is used iff it is a non-empty value; otherwise a non-empty stored token; a chosen token is never empty |
| MusicPlayer.TrackFor | src/components/hub/MusicPlayer.tsx:40-48 | a listed system state gets its track and any other the overlord's |
| MusicPlayer.TrackIsListed | src/components/hub/MusicPlayer.tsx:40-48 | the track is always a `spotify:track:` URI of a listed track |
| MusicPlayer.Player.constructor | src/components/hub/MusicPlayer.tsx:31-48 | the player starts with no token, no device, not playing, and the state's track |
| MusicPlayer.Player.LoadToken | src/components/hub/MusicPlayer.tsx:51-66 | a hash token is stored, used and the hash cleared; failing that a stored token is used; otherwise nothing changes |
| MusicPlayer.Player.DeviceReady | src/components/hub/MusicPlayer.tsx:83-86 | the ready event sets the device and nothing else |
| MusicPlayer.Player.StateChanged | src/components/hub/MusicPlayer.tsx:88-92 | a null state is ignored; otherwise playing iff not paused, and the track name or 'Unknown Track' |
| MusicPlayer.Player.TogglePlay | src/components/hub/MusicPlayer.tsx:104-132 | playing pauses; otherwise with a token and a device the track is requested and playback starts iff the request resolves, with the failure toast if not; without both, the not-connected toast and nothing sent |

## Left out

- Real I/O is not modelled: the HTTP server, `fetch`, `req.json()`, `response.json()`, the Supabase client and its insert, `console.error`, `crypto.randomUUID`, `localStorage`, the browser location, the Spotify SDK and toasts. Each is an input or an outcome value.
- `response.text()` on an upstream error is not modelled. Its result is only logged; if it threw, the `catch` answer would follow.
- `createClient` with a missing environment variable is not modelled: the insert is an outcome value.
- The `EXECUTOR_URL` / `ASSESSOR_URL` / `JUDGE_URL` environment defaults and the request URLs are not modelled.
- Zod.Parse: string lengths count Unicode scalar values, where Zod counts UTF-16 code units, so texts outside the Basic Multilingual Plane are measured differently.
- Zod.Parse: a JSON member named `__proto__` is not modelled. Zod skips that key when it builds its output object.
- Json: numbers are exact reals, not IEEE doubles.
- Json.Property / Json.Member: read own members only. JavaScript also finds names inherited from `Object.prototype` (such as `constructor`) and the `length` of strings and arrays. The keys read here are `location`, `symptoms`, `evidence`, `signal_id`, `data`, `assessment`, `context`, `odu`, `assessor_hash`, `root_cause` and `recommended_action`, none of which is inherited, so reads of these keys are unaffected.
- NetworkGraph.GenerateLinks: requires at least two agents. The source then draws from an empty list and throws a TypeError, but only when a data node exists or an extra-link roll succeeds. The page always passes twelve agents (`NetworkGraph.GeneratedNodes`).
- NetworkGraph.Pick: `Math.floor(r * n)` is taken on exact reals. For the list sizes used here (3, 4, 11, 12), double rounding cannot reach n.
- The link draw order is modelled. Which agent a data link targets, and whether an extra link is rolled, are read from the draw stream rather than stated as distributions.
- The canvas callbacks, the force-graph layout and the `centerNodeId` highlight of `NetworkGraph.tsx` are presentation and are not modelled.
- Auth: the `.email()` check is the input predicate `validEmail`. The password length counts Unicode scalar values, not UTF-16 code units. Google sign-in and the password-visibility toggle are not modelled. A `signIn`/`signUp` that rejects rather than returning an error is not modelled; `finally` would still clear loading.
- MapboxGlobe.NeuralLinks: built on the corrected lookup `CoordinatesFor` (see ## Findings). As written, a node whose location is an inherited name such as `"toString"` gives its segment the inherited value instead of `[0, 0]`; on every other location the two agree (`MapboxGlobe.AsWrittenAgrees`).
- MapboxGlobe: the map, markers, popups, fog, the `getSource('neural-links')` re-check, the layers and `spinGlobe` are rendering and timing, and are not modelled.
- MusicPlayer.TrackFor: models own keys only. The prop's type admits only the six listed states, so the prototype-name lookup of the globe cannot arise through typed callers.
- MusicPlayer: volume `inc`/`dec` (floating point), mute, and SDK script loading are not modelled.

## Findings

| source | as written | input that shows it | evidently intended | confidence | as-written member | corrected member |
|---|---|---|---|---|---|---|
| src/components/hub/MapboxGlobe.tsx:231 | `locationMap[location] \|\| [0, 0]` indexes an object literal, so names inherited from `Object.prototype` are found and are truthy | a node whose location is `"toString"` (likewise `"constructor"`, `"valueOf"`, `"__proto__"`, …) gets the inherited function or object as its coordinates | any name that is not a listed region maps to `[0, 0]` | not executed; follows from JavaScript's property lookup | MapboxGlobe.InheritedNameEscapes | MapboxGlobe.CoordinatesFor |
