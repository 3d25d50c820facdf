# Live transcript hook, relay endpoint and forwarding helpers

A model of the decision logic of a small voice-call transcript viewer. A React hook
subscribes to a SignalR hub, turns transcript events into chat messages, keeps an
arrival-ordered history and hands its caller a copy stably sorted by timestamp,
while tracking a connection status (`Disconnected`, `Connecting`, `Connected`) and
one error slot. The page that uses the hook derives the hook's enable flag, can
forward transcript lines to a relay endpoint, and can auto-forward the line
with the latest timestamp. The relay endpoint validates and normalises what it
receives and passes it to an upstream worker.

Everything is pure functions over immutable datatypes:

- `Types` — the record shapes: `TranscriptionData`, `SignalRMessage` (its wire
  field `type` is called `tag` here, `type` being a Dafny keyword), `Sender`,
  `ChatMessage`, and `Present` (JavaScript truthiness of an optional string).
- `TimestampOrder` — the sort. Date parsing is a parameter `timeKey: string -> int`.
  The sort is an insertion sort proved sorted, a permutation and stable, where
  stable means: for every time value, the messages carrying it are in the same
  order before and after. A uniqueness lemma shows that these three properties
  determine the result. So the insertion sort computes what any stable sort
  computes, including ECMAScript's `Array.prototype.sort`, which is stable since ES2019.
- `Transcript` — the reducer `Step`, runs of events, and the sorted view.
- `Connection` — the status/error state machine: the effect body (`Activate`),
  the client callbacks (`Fire`), the cleanup, and a hook-level trace (`HookStep`).
- `Json`, `Relay` — JSON values with JavaScript truthiness and `||`, and the relay
  handler as `(method, body, upstream outcome, clock readings) -> (response, forwarded payload)`.
- `Client` — the page's enable flag, speaker mapping, forwarded body, send and
  auto-forward logic.

Inputs that are not logic are parameters: the fresh message id (`Date.now()` plus
`Math.random()`), the parsed time of a timestamp, the clock readings of
`new Date().toISOString()`, the upstream worker's answer and the result of `fetch`.

Points where the code differs from what a reader might expect, modelled as written:

- On the gate-closed path the effect sets `Disconnected` only if it still holds a
  connection. Otherwise the status is left alone. `ConfigureClosed` shows that on
  every reachable state the result is `Disconnected` anyway, because the pending
  cleanup has already run.
- The page passes speaker `"user"` for typed text, and the mapping sends every
  speaker other than `"caller"` as `"ai"`. Typed text therefore reaches the relay
  labelled `"ai"` (`ManualSendLabelledAi`).
- The page sets the enable flag to false whenever the token is missing, so the
  hook's own "Authentication token is missing." error never shows in this page
  (`EnabledFlagGate`).
- Auto-forward sends the last message of the timestamp-sorted list. That need not
  be the last message to arrive (`AutoForwardNotLatestArrival`).
- A reader might expect malformed payloads to be dropped, ids
  never to collide, and a stale connection's messages to be ignored. The code does
  none of these (`JSON.parse` is not guarded, ids are time-plus-random, callbacks
  are not checked against the current connection). The model follows the code
  and claims none of them.

## Model

| member | source | states |
|---|---|---|
| TimestampOrder.InsertPermutes | src/hooks/use-signalR.ts:165-170 | inserting a message adds exactly that message to the multiset of the list |
| TimestampOrder.InsertSorted | src/hooks/use-signalR.ts:165-170 | inserting into a time-sorted list keeps it sorted |
| TimestampOrder.InsertWithKey | src/hooks/use-signalR.ts:165-170 | an inserted message goes to the front of its own time class; every other time class is unchanged |
| TimestampOrder.SortPermutes | src/hooks/use-signalR.ts:165-170 | the sorted copy holds exactly the history's messages (a permutation) |
| TimestampOrder.SortSorted | src/hooks/use-signalR.ts:165-170 | the sorted copy is non-decreasing by parsed timestamp for every pair of positions |
| TimestampOrder.SortStable | src/hooks/use-signalR.ts:165-170 | for every time value, messages with that time keep their arrival order |
| TimestampOrder.SortedStableUnique | src/hooks/use-signalR.ts:165-170 | two sorted lists that agree on the order within every time class are equal |
| TimestampOrder.SortIsTheStableSort | src/hooks/use-signalR.ts:165-170 | any sorted, stable reordering of the history is the one the model computes, so it matches the stable `Array.prototype.sort` |
| TimestampOrder.LastIsLatest | src/App-main.tsx:52-58 | the last element of a sorted, stable reordering of the history is a history message with the greatest time, and the last to arrive among messages with that time |
| Transcript.Step | src/hooks/use-signalR.ts:104-140 | unhandled tags (including `call.connected`) leave the history unchanged; a disconnect empties it; a caller or AI event appends one entry with that sender, the event's timestamp and text and the fresh id, and keeps the old history as a prefix |
| Transcript.StepAppends | src/hooks/use-signalR.ts:108-139 | any event other than a disconnect appends its entry when it is a transcript event and nothing otherwise |
| Transcript.RunWithoutDisconnect | src/hooks/use-signalR.ts:104-140 | a run of events without a disconnect appends exactly its transcript events, in arrival order |
| Transcript.RunAfterLastDisconnect | src/hooks/use-signalR.ts:104-140 | after any run, the history is exactly the transcript events that arrived after the last disconnect, whatever it held before |
| Transcript.DisconnectThenCaller | src/hooks/use-signalR.ts:112-122 | a caller event right after a disconnect yields a one-element history |
| Transcript.SortedView | src/hooks/use-signalR.ts:165-172 | the list the hook returns is sorted by parsed timestamp, is a permutation of the history, and is stable |
| Transcript.SortedViewReorders | src/hooks/use-signalR.ts:112-133 | a caller line at T1 followed by an AI line at T0 is shown AI line first |
| Connection.Activate | src/hooks/use-signalR.ts:39-56 | gate open: Connecting, error cleared, connection held. Gate closed: no connection held, and Disconnected if one was held. The error is the missing-token message exactly when enabled without a token, otherwise cleared |
| Connection.Fire | src/hooks/use-signalR.ts:68-102 | start ok gives Connected; start failure gives Disconnected with `Connection failed: …`; close gives Disconnected with the close error or a cleared error; reconnecting gives Connecting and overwrites the error only when one is supplied; reconnected gives Connected with a cleared error; a received message goes through the reducer and nothing else changes |
| Connection.FireNeverReportsTokenMissing | src/hooks/use-signalR.ts:68-102 | no client callback sets the missing-token error; after a callback it can only be the error that was already there |
| Connection.Cleanup | src/hooks/use-signalR.ts:150-161 | cleanup drops the connection, sets Disconnected and empties the history, leaving the error as it was |
| Connection.HookStepQuiescent | src/hooks/use-signalR.ts:39-162 | every hook-level step preserves: without a connection, the status is Disconnected and the history is empty |
| Connection.HookRunQuiescent | src/hooks/use-signalR.ts:39-162 | every state reachable by reconfiguring, callbacks and unmounting satisfies that invariant |
| Connection.HookStepTokenErrorOffline | src/hooks/use-signalR.ts:39-162 | every hook-level step preserves: while the missing-token error is shown, no connection is held |
| Connection.HookRunTokenErrorOffline | src/hooks/use-signalR.ts:39-162 | that invariant holds along every sequence of reconfigurations, callbacks and unmounts |
| Connection.Reachable | src/hooks/use-signalR.ts:31-37 | from the hook's initial state (Disconnected, no error, no connection, empty history) both invariants hold after any sequence of events |
| Connection.ConfigureOpen | src/hooks/use-signalR.ts:39-65 | reconfiguring with enabled, URL and token set gives one held connection, Connecting, no error, empty history |
| Connection.ConfigureClosed | src/hooks/use-signalR.ts:40-53 | reconfiguring with the gate closed gives no connection, Disconnected, empty history; the error is the missing-token message exactly when enabled without a token |
| Connection.UnmountClears | src/hooks/use-signalR.ts:150-161 | after unmounting no connection is held, the status is Disconnected and the history is empty |
| Json.Or | src/pages/api/send-to-cloudflare.js:39-42 | JavaScript or-defaulting: the value itself when truthy, the fallback when falsy or undefined |
| Relay.Payload | src/pages/api/send-to-cloudflare.js:27-46 | the forwarded payload's keys; `type`, `speaker` and `confidence` take the body's value when truthy and the defaults `transcript`, `user`, 0.95 otherwise; `transcript` is passed when present; extra fields are copied and override the server's `timestamp` and `source` |
| Relay.Reply | src/pages/api/send-to-cloudflare.js:59-83 | after forwarding: 200 with success true and the worker's answer when it replied ok; otherwise 500 with success false, carrying the network error's message when the worker was unreachable |
| Relay.Handle | src/pages/api/send-to-cloudflare.js:4-85 | every response carries the three CORS headers; OPTIONS gives 200 with an empty body; other non-POST methods give 405 `Method not allowed`; a POST without truthy transcript and type gives 400 `Missing required fields`; nothing is forwarded in those cases. Otherwise the normalised payload is forwarded, and the response is 200 with success true when upstream delivered, else 500 with success false |
| Relay.ZeroConfidenceReplaced | src/pages/api/send-to-cloudflare.js:42 | an explicit confidence of 0 is replaced by 0.95 |
| Relay.ClientFieldsOverride | src/pages/api/send-to-cloudflare.js:43-45 | a client-supplied `timestamp` and `source` win over the server-generated ones |
| Client.EnabledFlagGate | src/App-main.tsx:18-32 | with the page's derived flag, the hook's gate opens exactly when both URL and token are set, and the hook never reports the missing-token error |
| Client.SpeakerLabel | src/App-main.tsx:70 | the label is `user` exactly for speaker `caller` and `ai` for every other speaker |
| Client.ManualSendLabelledAi | src/App-main.tsx:96 | typed text, sent with speaker `user`, is labelled `ai` |
| Client.ForwardBody | src/App-main.tsx:68-74 | the posted body has exactly the five keys, the mapped speaker, type `signalr-forward` and confidence 0.95 |
| Client.ForwardBodyThroughRelay | src/App-main.tsx:63-74 | a forwarded body passes the relay's validation, and the relay keeps its type, label, confidence and transcript, keeps the client's timestamp, and adds source `vercel-app` |
| Client.Forwarded | src/App-main.tsx:77-87 | the helper returns true exactly when a response arrived and was ok; a network error gives false |
| Client.TrimEmptyIffBlank | src/App-main.tsx:92 | `trim()` yields the empty string exactly when every character is ECMAScript whitespace or a line terminator |
| Client.Send | src/App-main.tsx:91-110 | blank text sends nothing and changes nothing; otherwise the text is posted with speaker `user`, `sending` ends false, and the input is cleared only on success |
| Client.AutoForwardPick | src/App-main.tsx:52-58 | a message is picked exactly when the toggle is on and the list is non-empty, and it is the list's last element |
| Client.AutoForwardBody | src/App-main.tsx:52-58 | the posted body is the forward body for the picked message's text and sender, with caller mapped to `user` and AI to `ai` |
| Client.AutoForwardPicksLatestTime | src/App-main.tsx:52-58 | over the hook's sorted list, the picked message is in the history, has the greatest parsed time, and arrived last among the messages with that time |
| Client.AutoForwardNotLatestArrival | src/App-main.tsx:52-58 | after a caller line at T1 and an AI line at T0, the caller line is forwarded though the AI line arrived last |

## Left out

- The SignalR client internals (handshake, token attachment, automatic-reconnect
  backoff, the `receivemessage` registration): only the callbacks it fires are modelled.
- Renders that leave `hubUrl`, `token` and `enabled` unchanged: React re-runs
  nothing then, so the hook trace has no event for them (`Configure` is a change).
- Promise and effect scheduling. The model assumes React runs a pending cleanup
  before the next effect body, and that only the current connection's callbacks
  reach the hook. A stale callback arriving after `stop()` is not modelled.
- `JSON.parse` of inbound payloads: the model takes parsed events. A malformed
  payload throws there and nothing catches it.
- Date parsing: `new Date(t).getTime()` is the parameter `timeKey`. Invalid dates
  (NaN) are not modelled.
- Id generation: ids are supplied per event, and no uniqueness is claimed, since
  time-plus-random ids do not guarantee it.
- `fetch` and HTTP I/O: the relay gets the upstream outcome and the page gets the
  fetch result as inputs. The relay's `await ...text()` of the upstream body is
  folded into that input.
- Relay.Handle: a null or missing body (destructuring throws, 500) and a primitive
  body (400) are not modelled; the body is taken as a parsed JSON object.
- Floating point: numbers are reals. Only their comparison with zero and the
  constant 0.95 matter, and NaN is not modelled.
- `testCloudflareConnection` (the test button): it only sets `sending` and calls
  the modelled send with a clock-formatted text.
- `handleSend` and `handleKeyPress`: they only pass the input text to `Send`.
- Rendering, scrolling, status colours and message formatting (`src/App.tsx`,
  `src/components/*`, the scroll effect of `src/App-main.tsx`), and console logging.
