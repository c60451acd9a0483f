/** The two framing protocols the relay translates between: the telephony
    media stream and the realtime model socket. Inbound frames are given
    already parsed, outbound messages as values; JSON text is not modelled. */
module Protocol {
  import opened Js

  /** The assistant's persona; the caller's identity is appended to it. */
  const SYSTEM_MESSAGE: string :=
    "Eres un asistente de ventas ecuatoriano servicial, al que le encanta charlar sobre algun producto electronico en específico que le interese al usuario y está dispuesto a ofrecerle datos. Debes saludamre por mi nombre."
  const VOICE: string := "coral"
  const AUDIO_FORMAT: string := "g711_ulaw"
  const TRANSCRIPTION_MODEL: string := "whisper-1"
  const TOOL_CHOICE: string := "auto"

  /** Names of the functions the session configuration advertises to the model. */
  const ADVERTISED_TOOLS: seq<string> := ["get_weather", "search_products", "validate_purchase"]

  /** The only tool the relay answers. */
  const WEATHER_TOOL: string := "get_weather"
  /** `JSON.stringify({ result: "18°C" })`. */
  const WEATHER_OUTPUT: string := "{\"result\":\"18°C\"}"

  const AUDIO_DELTA: string := "response.audio.delta"
  const FUNCTION_ARGUMENTS_DONE: string := "response.function_call_arguments.done"

  const PLACEHOLDER_NAME: string := "usuario"
  const PLACEHOLDER_PHONE: string := "desconocido"

  // ---------------------------------------------------------------------
  // Telephony media stream, inbound

  datatype MediaBody = MediaBody(payload: Field)
  datatype CustomParameters = CustomParameters(name: Field, phone: Field)
  datatype StartBody = StartBody(streamSid: Field, customParameters: Option<CustomParameters>)

  /** A text frame from the telephony socket. `TelephonyUnparsable` is a frame
      `JSON.parse` rejects, or one that parses to `null` (reading `.event`
      then throws). Otherwise the frame carries its `event` tag and its
      `media` and `start` objects (`None`: missing or `null`). */
  datatype TelephonyMessage =
    | TelephonyUnparsable
    | TelephonyFrame(event: Field, media: Option<MediaBody>, start: Option<StartBody>)

  // ---------------------------------------------------------------------
  // Realtime model socket, inbound

  /** A text frame from the model socket: unparsable (or `null`), or an event
      with its `type` tag and the properties the relay reads. `arguments` is
      `Str` for any value other than `undefined` and `null`. */
  datatype ModelMessage =
    | ModelUnparsable
    | ModelEvent(kind: Field, name: Field, callId: Field, arguments: Field, delta: Field)

  // ---------------------------------------------------------------------
  // Outbound messages

  /** The `session` object of a `session.update` (numeric tuning constants
      are not modelled). */
  datatype SessionConfig = SessionConfig(
    modalities: seq<string>,
    instructions: string,
    voice: string,
    inputAudioFormat: string,
    outputAudioFormat: string,
    transcriptionModel: string,
    tools: seq<string>,
    toolChoice: string)

  /** Messages the relay sends on the model socket: `session.update`,
      `input_audio_buffer.append`, and a `conversation.item.create` whose item
      is a `function_call_output`. */
  datatype ModelOutbound =
    | SessionUpdate(session: SessionConfig)
    | AudioAppend(audio: Field)
    | FunctionCallOutput(callId: Field, output: string)

  /** `Buffer.from(delta, "base64").toString("base64")`, kept symbolic: the
      base64 decoder is not modelled. */
  datatype Payload = Reencoded(delta: string)

  /** `{event: "media", streamSid, media: {payload}}` on the telephony socket. */
  datatype TelephonyOutbound = MediaFrame(streamSid: Field, payload: Payload)

  // ---------------------------------------------------------------------
  // Builders

  /** The instructions of `sendSessionUpdate(name, phone)`: the persona
      followed by the caller's name and number, or the placeholders when an
      argument is `undefined`. */
  function Instructions(name: Field, phone: Field): (r: string)
    ensures |r| > |SYSTEM_MESSAGE| && r[..|SYSTEM_MESSAGE|] == SYSTEM_MESSAGE
  {
    Greeting() + OrDefault(name, PLACEHOLDER_NAME) + NumberClause(phone)
  }

  /** The text before the caller's name. */
  function Greeting(): string
  {
    SYSTEM_MESSAGE + " Me llamo "
  }

  /** The text after the caller's name. */
  function NumberClause(phone: Field): string
  {
    " y mi número es " + OrDefault(phone, PLACEHOLDER_PHONE) + "."
  }

  /** The message `sendSessionUpdate(name, phone)` sends. */
  function SessionUpdateMessage(name: Field, phone: Field): (r: ModelOutbound)
    ensures r.SessionUpdate? && r.session.instructions == Instructions(name, phone)
    ensures r.session.tools == ADVERTISED_TOOLS && WEATHER_TOOL in r.session.tools
    ensures r.session.inputAudioFormat == r.session.outputAudioFormat == AUDIO_FORMAT
  {
    SessionUpdate(SessionConfig(
      ["text", "audio"],
      Instructions(name, phone),
      VOICE,
      AUDIO_FORMAT,
      AUDIO_FORMAT,
      TRANSCRIPTION_MODEL,
      ADVERTISED_TOOLS,
      TOOL_CHOICE))
  }

  /** The `get_weather` answer correlated with the request's `call_id`. */
  function WeatherResult(callId: Field): (r: ModelOutbound)
    ensures r.FunctionCallOutput? && r.callId == callId
  {
    FunctionCallOutput(callId, WEATHER_OUTPUT)
  }

  // ---------------------------------------------------------------------
  // The instructions identify the caller

  lemma {:induction false} MiddleDetermined(a: string, x: string, y: string, c: string)
    requires a + x + c == a + y + c
    ensures x == y
  {
    var w := a + x + c;
    assert |x| == |y|;
    assert x == w[|a|..|a| + |x|];
    assert y == (a + y + c)[|a|..|a| + |y|];
  }

  lemma {:induction false} TailDetermined(a: string, m: string, x: string, y: string, d: string)
    requires a + (m + x + d) == a + (m + y + d)
    ensures x == y
  {
    var w := a + (m + x + d);
    assert |x| == |y|;
    assert x == w[|a| + |m|..|a| + |m| + |x|];
    assert y == (a + (m + y + d))[|a| + |m|..|a| + |m| + |y|];
  }

  /** For a fixed number, different rendered names give different instructions. */
  lemma {:induction false} InstructionsDetermineName(n1: Field, n2: Field, phone: Field)
    requires Instructions(n1, phone) == Instructions(n2, phone)
    ensures OrDefault(n1, PLACEHOLDER_NAME) == OrDefault(n2, PLACEHOLDER_NAME)
  {
    MiddleDetermined(Greeting(), OrDefault(n1, PLACEHOLDER_NAME), OrDefault(n2, PLACEHOLDER_NAME), NumberClause(phone));
  }

  /** For a fixed name, different rendered numbers give different instructions. */
  lemma {:induction false} InstructionsDeterminePhone(name: Field, p1: Field, p2: Field)
    requires Instructions(name, p1) == Instructions(name, p2)
    ensures OrDefault(p1, PLACEHOLDER_PHONE) == OrDefault(p2, PLACEHOLDER_PHONE)
  {
    TailDetermined(Greeting() + OrDefault(name, PLACEHOLDER_NAME), " y mi número es ",
      OrDefault(p1, PLACEHOLDER_PHONE), OrDefault(p2, PLACEHOLDER_PHONE), ".");
  }

  /** The placeholders stand in for an `undefined` argument only; a JSON
      `null` is rendered as the text "null". */
  lemma PlaceholdersReplaceUndefinedOnly(name: Field, phone: Field)
    ensures Instructions(Absent, phone) == Instructions(Str(PLACEHOLDER_NAME), phone)
    ensures Instructions(Null, phone) == Instructions(Str("null"), phone)
    ensures Instructions(name, Absent) == Instructions(name, Str(PLACEHOLDER_PHONE))
    ensures Instructions(name, Null) == Instructions(name, Str("null"))
  {
  }
}
