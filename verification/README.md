# Twilio ↔ OpenAI Realtime voice relay, modelled in Dafny

The server in `index.js` connects a phone call to a realtime speech model.

- **Relay session.** For every call, the telephony provider opens a WebSocket on `/media-stream`. The server then dials a second WebSocket to the model and relays between them:
  - caller audio (`media` frames) goes to the model as `input_audio_buffer.append`;
  - model audio (`response.audio.delta`) goes back to the call as telephony `media` frames addressed to the call's `streamSid`;
  - a completed `get_weather` tool call is answered with a fixed result.
  - The model is configured with a `session.update`, which names the caller. It is sent by a `once("open")` listener that the telephony `start` event registers.
- **Caller directory.** A small map, `callParams`, from phone number to caller name.
  - It is seeded at start-up.
  - It is written by `POST /make-call` before an outbound call is placed.
  - It is read by `/incoming-call` to pass the caller's name and number to the media stream.

## Modules

- `js.dfy` (`Js`): the JavaScript values the handlers see after `JSON.parse`.
  - `Field` is a string property that is `undefined`, `null` or a string.
  - Also here: truthiness, `String()`, and default parameters.
- `protocol.dfy` (`Protocol`): the inbound frames of both sockets as parsed datatypes. Each has a case for a frame that does not parse. Also:
  - the outbound messages;
  - the constants;
  - the builders `sendSessionUpdate` and the tool answer;
  - proofs that the instructions determine the caller's name and number.
- `relay.dfy` (`Relay`): one session.
  - `Session` is the state as a value: `streamSid`, the model socket's ready state, whether telephony is open, the pending `once("open")` listeners, and the two outboxes.
  - Each socket callback has a specification function: `OnTelephonyMessage`, `OnModelOpen`, `OnModelMessage`, and so on.
  - The class `RelaySession` has one method per callback. Each method updates the fields in place and is proved equal to its function.
  - Small classifier functions (`Registers`, `AnswerDue`, `AudioReturned`, …) read off a frame alone what it asks the relay to do. The handler contracts are stated against them.
- `traces.dfy` (`Traces`): runs of a session. A run is a sequence of socket events, delivered one at a time, and only when the sockets can deliver them (`ValidRun`). Properties are proved by induction over every run:
  - tool results correlate one-to-one with `get_weather` completions;
  - audio frames correlate one-to-one with non-empty deltas;
  - every registered listener is configured exactly once or is still pending;
  - nothing is configured after `open`;
  - `streamSid` is that of the last `start`.
  - Concrete runs show what the code does in a few cases:
    - a `start` after `open` is never configured;
    - two `start`s give two configurations;
    - audio can reach a model that was never configured;
    - hanging up while the model is dialling leaves the model socket open.
- `directory.dfy` (`CallerDirectory`): the class `CallParams`, with the `/make-call` and `/incoming-call` operations and their lookup and insert rules.

The model follows the code as written, including:
- A `start` that arrives after the model socket has opened registers a `once("open")` listener that never fires. If no `start` came before `open`, that call's model is never configured.
- The `open` handler itself sends nothing. Its timed `sendSessionUpdate` is commented out.
- `/incoming-call` falls back to the string `"desconocido"` and then destructures `name` from it. An unknown caller therefore reaches the stream named `"undefined"`, not by a placeholder.

## Model

| member | source | states |
|---|---|---|
| Protocol.Instructions | index.js:144-150 | The instructions begin with the full persona text and then add the caller's identity. |
| Protocol.SessionUpdateMessage | index.js:144-218 | `sendSessionUpdate` builds a `session.update` carrying these instructions. It advertises exactly the three tools (including `get_weather`) and uses `g711_ulaw` in both directions. |
| Protocol.WeatherResult | index.js:251-261 | The tool answer is a `function_call_output` whose `call_id` is the request's. |
| Protocol.InstructionsDetermineName | index.js:149-150 | For a fixed number, equal instructions mean equal rendered names. |
| Protocol.InstructionsDeterminePhone | index.js:149-150 | For a fixed name, equal instructions mean equal rendered numbers. |
| Protocol.PlaceholdersReplaceUndefinedOnly | index.js:144 | For any other argument, `"usuario"` replaces an `undefined` name and `"desconocido"` replaces an `undefined` phone. A `null` name or phone is rendered as `"null"`. |
| Relay.Fire | index.js:304-307 | Firing listeners sends one `session.update` per listener, in registration order, each with that listener's captured name and number. |
| Relay.FireAppend | index.js:304-307 | Firing two groups of listeners sends the first group's updates, then the second's. |
| Relay.OnMedia | index.js:292-300 | A `media` event appends exactly one `input_audio_buffer.append` with the frame's payload iff the model socket is OPEN and a `media` object is present. Otherwise it sends nothing. `streamSid`, the listeners, the sockets and the telephony outbox are unchanged. |
| Relay.OnStart | index.js:301-309 | `streamSid` takes the event's value. Exactly one listener with the custom name and phone is appended iff `customParameters` is present. Nothing is sent. A missing `start` object changes nothing. |
| Relay.OnTelephonyMessage | index.js:288-317 | A telephony frame registers exactly the listeners it carries and moves `streamSid` to the stream it starts. It forwards its audio only while the model socket is OPEN. The sockets and the telephony outbox are unchanged. Any event other than `media`/`start`, and a frame that does not parse, leave the session as it was. |
| Relay.OnTelephonyClose | index.js:320-323 | Telephony closes. The model socket changes iff it was OPEN, and then becomes CLOSING. Nothing is sent and nothing else changes. |
| Relay.OnModelOpen | index.js:304-307 | The model socket becomes OPEN. Its `on("open")` handler (index.js:222-225) only logs. The pending `once("open")` listeners registered here then run. Every pending listener fires exactly once, in order, and is removed. Position *i* of the new messages is the `session.update` of listener *i*. Nothing goes to telephony. |
| Relay.OnFunctionCallDone | index.js:245-264 | A completion sends exactly one weather answer with the request's `call_id` iff the tool is `get_weather` and `arguments` is neither `undefined` nor `null`. Nothing else changes. |
| Relay.OnAudioDelta | index.js:267-276 | A non-empty delta sends exactly one media frame to telephony. The frame is addressed to the current `streamSid` and carries the re-encoded delta. A missing or empty delta sends nothing. |
| Relay.OnModelMessage | index.js:228-285 | The model outbox grows by exactly the answer the event asks for. Telephony receives exactly the audio the event carries, addressed to the current `streamSid`. At most one message leaves. `streamSid`, the listeners and both sockets are unchanged. An unparsable frame changes nothing. |
| Relay.OnModelClose | index.js:325-327 | The model socket becomes CLOSED. The telephony socket, `streamSid`, the listeners and the outboxes are unchanged. |
| Relay.OnModelError | index.js:328-330 | The model socket becomes CLOSING, or stays CLOSED. Nothing else changes and nothing is sent. |
| Relay.RelaySession.constructor | index.js:142 | A new session has `streamSid` `null`, the model socket dialling, no listeners and empty outboxes. |
| Relay.RelaySession.HandleTelephonyMessage | index.js:288-317 | Updating the fields in place yields exactly `OnTelephonyMessage` of the old state. |
| Relay.RelaySession.HandleTelephonyClose | index.js:320-323 | In-place update equal to `OnTelephonyClose`. |
| Relay.RelaySession.HandleModelOpen | index.js:304-307 | Its loop runs the listeners one by one and yields exactly `OnModelOpen` of the old state. |
| Relay.RelaySession.HandleModelMessage | index.js:228-285 | In-place update equal to `OnModelMessage`. This includes the early exit when destructuring `arguments` throws. |
| Relay.RelaySession.HandleModelClose | index.js:325-327 | In-place update equal to `OnModelClose`. |
| Relay.RelaySession.HandleModelError | index.js:328-330 | In-place update equal to `OnModelError`. |
| Traces.RunAppend | index.js:288-330 | Handling two event sequences in turn is handling their concatenation. A run is valid iff both parts are. |
| Traces.ToolResultsCorrelate | index.js:245-263 | In every run, the tool results sent are exactly the answers to the run's `get_weather` completions, one each, in order, each with its own `call_id`. |
| Traces.FramesFollowDeltas | index.js:267-276 | In every run, the frames sent to telephony carry exactly the run's non-empty audio deltas, in order. |
| Traces.ListenersAccounted | index.js:301-307 | In every run, the configurations sent plus those the pending listeners would send equal, in order, those of every listener a `start` registered. |
| Traces.NeverRedials | index.js:132-140 | The model socket never returns to CONNECTING. |
| Traces.NoConfigurationAfterOpen | index.js:304-307 | Once the model socket has left CONNECTING, no `session.update` is ever sent again. Listeners only accumulate. |
| Traces.SilentWhileDialling | index.js:292-300 | While the model socket is dialling, nothing is sent to it. Every registration stays pending, in order. |
| Traces.StreamSidIsLatestStart | index.js:302 | After any run, `streamSid` is that of the last `start` event, or its earlier value if there was none. |
| Traces.FrameAddressedToLatestStream | index.js:268-274 | An audio delta after any run from a new session is sent to the stream of the last `start`. Before a `start`, it goes to `null`. |
| Traces.StartAfterOpenIsNeverConfigured | index.js:304-307 | A `start` arriving after `open` never produces a configuration, whatever follows. |
| Traces.StartBeforeOpenIsConfiguredOnce | index.js:301-307 | `start` then `open` sends exactly one configuration, with the caller's name and number. It leaves no listener and records the stream. |
| Traces.TwoStartsTwoConfigurations | index.js:304-307 | Two `start`s before `open` send two configurations, in order. |
| Traces.AudioWithoutConfiguration | index.js:292-299 | Audio is forwarded to a model that was never configured when `open` precedes every `start`. |
| Traces.HangUpWhileDiallingLeavesModelOpen | index.js:320-323 | A hang-up while the model is dialling does not close the model socket. It is OPEN once it connects. |
| CallerDirectory.Lookup | index.js:75 | `callParams.get` finds an entry iff the key is a stored string, and returns that entry. |
| CallerDirectory.CallerName | index.js:75 | The resolved name is `undefined` iff neither `To` nor `From` is a stored number, otherwise it is a stored caller's name; it is never `null`. |
| CallerDirectory.CallerPhone | index.js:74 | The phone is `To` when it is truthy, and `"desconocido"` otherwise. It is never empty. |
| CallerDirectory.IncomingParameters | index.js:74-88 | The name is the stored name of `To` if `To` is stored. Otherwise it is the stored name of `From` if `From` is stored. Otherwise it is `"undefined"`. The phone is `To` when truthy, and `"desconocido"` otherwise. |
| CallerDirectory.MakeCallEntries | index.js:100-109 | With a falsy name or phone the map is unchanged. Otherwise exactly `phone` is added or overwritten, mapping to `{name}`, and every other entry is kept. |
| CallerDirectory.MakeCallReply | index.js:100-125 | 400 with "Missing name or phone number" iff a field is falsy. `Created` iff the call was placed, with its SID. 500 iff call creation threw. |
| CallerDirectory.CallParams.constructor | index.js:35-39 | The directory starts with exactly the three seeded callers and is well formed. |
| CallerDirectory.CallParams.MakeCall | index.js:100-125 | The map and the reply are as above, whatever the call outcome. Numbers and names stay non-empty. |
| CallerDirectory.CallParams.IncomingCall | index.js:72-76 | The stream parameters follow the lookup rules. The name is either `"undefined"` or the non-empty stored name. |
| CallerDirectory.SeededCallersKnown | index.js:37-39 | Each seeded number resolves to its name as `To`, whatever `From` is. It also resolves as `From` when `To` is not a stored number. |
| CallerDirectory.MadeCallIsRecognised | index.js:100-109 | After a valid `/make-call`, an incoming call to that number carries that name and number, whether or not call creation succeeded. |
| CallerDirectory.RejectedMakeCallChangesNothing | index.js:102-104 | A 400 rejection leaves every lookup unchanged. |
| CallerDirectory.ToTakesPrecedence | index.js:75 | A stored `To` decides the name whatever `From` is. Without one, `From` decides. |
| CallerDirectory.UnknownCallerIsNamedUndefined | index.js:74-75 | An unknown caller reaches the stream named `"undefined"`. The resulting instructions differ from those the `"usuario"` placeholder would give. |
| CallerDirectory.NamesAreTruthyOrAbsent | index.js:102-108 | In a well-formed directory the resolved name is absent or a non-empty string, so the rendered name is never empty. |

## Left out

- Fastify setup, route registration, `listen`, the root route, `/incoming-error` and the environment check: HTTP and process plumbing.
- `client.calls.create` is a foreign network client. It appears only as an opaque outcome (`CallOutcome`) after the map write.
- Dialling the model WebSocket and its auth headers are transport. The socket is an abstract ready state, with the `ws` library's transitions: `close()` on OPEN gives CLOSING, an error gives CLOSING, a close event gives CLOSED.
- `JSON.parse`/`JSON.stringify` are not modelled. Inbound frames are parsed datatypes with an unparsable case, and outbound messages are datatypes.
  - Properties the relay reads are strings, `null` or missing. Non-string JSON values (numbers, objects) are not modelled.
  - The same holds for the `/make-call` body (`name`, `phone`) and the `/incoming-call` body (`To`, `From`).
  - For example, a JSON `/make-call` body with a numeric `phone` stores the entry under a number key (index.js:108). A string `To` never finds that key (index.js:75). The model's keys are strings only.
- The base64 decode and re-encode of an audio delta is kept symbolic (`Payload.Reencoded(delta)`). No claim is made that the payload equals the delta.
- Protocol.SessionUpdateMessage: does not state the tool parameter schemas, the voice-activity tuning constants, the temperature or the output token limit. These are fixed payload contents.
- Console logging and `LOG_EVENT_TYPES`: output only, with no effect on state.
- TwiML XML rendering of `/incoming-call`: only the two parameter values it carries are modelled, not the XML text. The model also does not cover escaping, or how the provider hands the values back as `customParameters`.
- Two kinds of throw inside the handlers are not modelled; in both cases the framework answers:
  - a request to `/make-call` or `/incoming-call` without a body;
  - a `Host` header that does not form a valid URL (for example `example.com:99999`, or a host containing a space). `new URL(...)` then throws at index.js:79 in `/incoming-call` and at index.js:106 in `/make-call`.
  - The model assumes the `Host` header always forms a valid URL.
- CallerDirectory.CallParams.MakeCall: writes the entry for every truthy name and phone. In the source the write at index.js:108 is skipped when the URL built at index.js:106 throws. The same assumption holds for `CallerDirectory.MakeCallEntries` and `CallerDirectory.MadeCallIsRecognised`.
- Interleaving between the two sockets and between sessions is not modelled: one session handles one event at a time.
- The effect of `send` on a socket that is not OPEN is not modelled. Every message handed to `send` is recorded in the outbox, including those the `ws` library drops.
  - A `get_weather` answer sent while the model socket is CLOSING is recorded in `toModel`.
  - An audio frame sent after telephony has hung up is recorded in `toTelephony`: a model event can still arrive after telephony has closed.
  - So `Traces.ToolResultsCorrelate` and `Traces.FramesFollowDeltas` count messages handed to `send`, not messages delivered.
