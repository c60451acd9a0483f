/** One `/media-stream` relay session: the state a telephony connection's
    handler closes over, and what each socket callback does to it. */
module Relay {
  import opened Js
  import opened Protocol

  /** The model socket's `readyState` as the `ws` client reports it. */
  datatype ReadyState = Connecting | Open | Closing | Closed

  /** A `once("open")` listener registered by a `start` event, with the name
      and number it captured. */
  datatype Listener = Listener(name: Field, phone: Field)

  /** The session as a value: the current `streamSid`, the model socket's
      ready state, whether the telephony socket is still open, the pending
      `once("open")` listeners in registration order, and every message
      handed to `send` on each socket, oldest first. */
  datatype Session = Session(
    streamSid: Field,
    modelSocket: ReadyState,
    telephonyOpen: bool,
    pending: seq<Listener>,
    toModel: seq<ModelOutbound>,
    toTelephony: seq<TelephonyOutbound>)

  /** A session just after the telephony socket was accepted: the model
      socket is dialling, `streamSid` is `null`, nothing was sent. */
  const Accepted: Session := Session(Null, Connecting, true, [], [], [])

  /** The `session.update` messages the given listeners send, in order. */
  function Fire(listeners: seq<Listener>): (r: seq<ModelOutbound>)
    ensures |r| == |listeners|
    ensures forall i :: 0 <= i < |listeners| ==>
      r[i] == SessionUpdateMessage(listeners[i].name, listeners[i].phone)
  {
    if listeners == [] then []
    else [SessionUpdateMessage(listeners[0].name, listeners[0].phone)] + Fire(listeners[1..])
  }

  lemma {:induction false} FireAppend(a: seq<Listener>, b: seq<Listener>)
    ensures Fire(a + b) == Fire(a) + Fire(b)
  {
    var l, r := Fire(a + b), Fire(a) + Fire(b);
    assert |l| == |r|;
    forall i | 0 <= i < |l| ensures l[i] == r[i] {
      if i < |a| { assert (a + b)[i] == a[i]; } else { assert (a + b)[i] == b[i - |a|]; }
    }
  }

  lemma Associative<T>(a: seq<T>, b: seq<T>, c: seq<T>)
    ensures a + b + c == a + (b + c)
  {
  }

  // ---------------------------------------------------------------------
  // What an inbound frame asks for, read off the frame alone

  /** The listener a telephony frame registers: one for a `start` event
      carrying both a `start` and a `customParameters` object. */
  function Registers(m: TelephonyMessage): seq<Listener>
  {
    match m
    case TelephonyFrame(Str("start"), _, Some(StartBody(_, Some(p)))) => [Listener(p.name, p.phone)]
    case _ => []
  }

  /** The `streamSid` a telephony frame assigns: that of a `start` event
      carrying a `start` object. */
  function StreamStarted(m: TelephonyMessage): Option<Field>
  {
    match m
    case TelephonyFrame(Str("start"), _, Some(body)) => Some(body.streamSid)
    case _ => None
  }

  /** The audio a telephony frame carries: that of a `media` event with a
      `media` object. */
  function AudioCarried(m: TelephonyMessage): seq<ModelOutbound>
  {
    match m
    case TelephonyFrame(Str("media"), Some(body), _) => [AudioAppend(body.payload)]
    case _ => []
  }

  /** The answer a model event asks for: one for a completed `get_weather`
      call whose `arguments` is present. */
  function AnswerDue(m: ModelMessage): seq<ModelOutbound>
  {
    match m
    case ModelEvent(Str(FUNCTION_ARGUMENTS_DONE), Str(WEATHER_TOOL), callId, Str(_), _) => [WeatherResult(callId)]
    case _ => []
  }

  /** The audio a model event carries for the caller: a non-empty delta of a
      `response.audio.delta` event. */
  function AudioReturned(m: ModelMessage): seq<string>
  {
    match m
    case ModelEvent(Str(AUDIO_DELTA), _, _, _, Str(d)) => if d != "" then [d] else []
    case _ => []
  }

  // ---------------------------------------------------------------------
  // Telephony socket

  /** A `media` event: its payload is forwarded as exactly one
      `input_audio_buffer.append` when the model socket is OPEN, and dropped
      otherwise. A missing `media` object makes the property read throw,
      which the handler's catch swallows. */
  function OnMedia(s: Session, media: Option<MediaBody>): (r: Session)
    ensures r.streamSid == s.streamSid && r.pending == s.pending
    ensures r.modelSocket == s.modelSocket && r.telephonyOpen == s.telephonyOpen
    ensures r.toTelephony == s.toTelephony
    ensures r.toModel == s.toModel + (if s.modelSocket == Open && media.Some? then [AudioAppend(media.value.payload)] else [])
  {
    if s.modelSocket == Open then
      match media
      case None => s
      case Some(body) => s.(toModel := s.toModel + [AudioAppend(body.payload)])
    else s
  }

  /** A `start` event: `streamSid` takes the event's value, then one
      `once("open")` listener capturing the custom `name` and `phone` is
      registered; nothing is sent now. A missing `start` object throws
      before anything changes; a missing `customParameters` object throws
      after `streamSid` was already assigned, so no listener is added. */
  function OnStart(s: Session, start: Option<StartBody>): (r: Session)
    ensures r.modelSocket == s.modelSocket && r.telephonyOpen == s.telephonyOpen
    ensures r.toModel == s.toModel && r.toTelephony == s.toTelephony
    ensures r.streamSid == if start.Some? then start.value.streamSid else s.streamSid
    ensures r.pending == s.pending +
      if start.Some? && start.value.customParameters.Some?
      then [Listener(start.value.customParameters.value.name, start.value.customParameters.value.phone)]
      else []
  {
    match start
    case None => s
    case Some(body) =>
      var s1 := s.(streamSid := body.streamSid);
      match body.customParameters
      case None => s1
      case Some(params) => s1.(pending := s1.pending + [Listener(params.name, params.phone)])
  }

  /** The telephony socket's `message` handler: a frame registers the
      listener it carries, moves `streamSid` to the stream it starts, and
      forwards the audio it carries only while the model socket is OPEN.
      Any other event, and a frame that does not parse, leaves the session
      as it was; the model socket and the telephony outbox are never touched. */
  function OnTelephonyMessage(s: Session, m: TelephonyMessage): (r: Session)
    ensures r.modelSocket == s.modelSocket && r.telephonyOpen == s.telephonyOpen
    ensures r.toTelephony == s.toTelephony
    ensures r.pending == s.pending + Registers(m)
    ensures r.streamSid == match StreamStarted(m) case Some(sid) => sid case None => s.streamSid
    ensures r.toModel == s.toModel + if s.modelSocket == Open then AudioCarried(m) else []
    ensures !(m.TelephonyFrame? && m.event in {Str("media"), Str("start")}) ==> r == s
  {
    match m
    case TelephonyUnparsable => s
    case TelephonyFrame(event, media, start) =>
      if event == Str("media") then OnMedia(s, media)
      else if event == Str("start") then OnStart(s, start)
      else s
  }

  /** The telephony socket's `close` handler: the model socket is closed if
      and only if it is OPEN (`close()` moves it to CLOSING). */
  function OnTelephonyClose(s: Session): (r: Session)
    ensures !r.telephonyOpen
    ensures (r.modelSocket != s.modelSocket) == (s.modelSocket == Open)
    ensures s.modelSocket == Open ==> r.modelSocket == Closing
    ensures r.streamSid == s.streamSid && r.pending == s.pending
    ensures r.toModel == s.toModel && r.toTelephony == s.toTelephony
  {
    s.(telephonyOpen := false, modelSocket := if s.modelSocket == Open then Closing else s.modelSocket)
  }

  // ---------------------------------------------------------------------
  // Model socket

  /** The model socket opens. The `open` handler only logs (its timed
      `sendSessionUpdate` is commented out); then every pending
      `once("open")` listener runs once, in registration order, and is
      removed, each sending one `session.update` with its captured identity. */
  function OnModelOpen(s: Session): (r: Session)
    ensures r.modelSocket == Open && r.pending == []
    ensures r.streamSid == s.streamSid && r.telephonyOpen == s.telephonyOpen
    ensures r.toTelephony == s.toTelephony
    ensures |r.toModel| == |s.toModel| + |s.pending| && s.toModel <= r.toModel
    ensures forall i :: 0 <= i < |s.pending| ==>
      r.toModel[|s.toModel| + i] == SessionUpdateMessage(s.pending[i].name, s.pending[i].phone)
  {
    s.(modelSocket := Open, pending := [], toModel := s.toModel + Fire(s.pending))
  }

  /** `response.function_call_arguments.done`: a `get_weather` call is
      answered with exactly one `function_call_output` carrying the
      request's `call_id`; any other tool name gets no answer. Destructuring
      `location` from a missing or `null` `arguments` throws before the send. */
  function OnFunctionCallDone(s: Session, name: Field, callId: Field, arguments: Field): (r: Session)
    ensures r.streamSid == s.streamSid && r.pending == s.pending
    ensures r.modelSocket == s.modelSocket && r.telephonyOpen == s.telephonyOpen
    ensures r.toTelephony == s.toTelephony
    ensures r.toModel == s.toModel +
      if name == Str(WEATHER_TOOL) && arguments.Str? then [FunctionCallOutput(callId, WEATHER_OUTPUT)] else []
  {
    if name == Str(WEATHER_TOOL) && arguments.Str? then
      s.(toModel := s.toModel + [WeatherResult(callId)])
    else s
  }

  /** `response.audio.delta`: a non-empty `delta` becomes exactly one
      telephony media frame addressed to the current `streamSid` (`null`
      before any `start`); a missing or empty `delta` sends nothing. */
  function OnAudioDelta(s: Session, delta: Field): (r: Session)
    ensures r.streamSid == s.streamSid && r.pending == s.pending
    ensures r.modelSocket == s.modelSocket && r.telephonyOpen == s.telephonyOpen
    ensures r.toModel == s.toModel
    ensures r.toTelephony == s.toTelephony +
      if Truthy(delta) then [MediaFrame(s.streamSid, Reencoded(delta.s))] else []
  {
    if Truthy(delta) then s.(toTelephony := s.toTelephony + [MediaFrame(s.streamSid, Reencoded(delta.s))])
    else s
  }

  /** The model socket's `message` handler: it sends the answer the event
      asks for and plays back the audio it carries, addressed to the current
      `streamSid`; at most one message leaves per event and nothing but the
      outboxes changes. A frame that does not parse changes nothing. */
  function OnModelMessage(s: Session, m: ModelMessage): (r: Session)
    ensures r.streamSid == s.streamSid && r.pending == s.pending
    ensures r.modelSocket == s.modelSocket && r.telephonyOpen == s.telephonyOpen
    ensures r.toModel == s.toModel + AnswerDue(m)
    ensures |r.toTelephony| == |s.toTelephony| + |AudioReturned(m)| && s.toTelephony <= r.toTelephony
    ensures forall i :: 0 <= i < |AudioReturned(m)| ==>
      r.toTelephony[|s.toTelephony| + i] == MediaFrame(s.streamSid, Reencoded(AudioReturned(m)[i]))
    ensures |r.toModel| + |r.toTelephony| <= |s.toModel| + |s.toTelephony| + 1
    ensures m.ModelUnparsable? ==> r == s
  {
    match m
    case ModelUnparsable => s
    case ModelEvent(kind, name, callId, arguments, delta) =>
      var s1 := if kind == Str(FUNCTION_ARGUMENTS_DONE) then OnFunctionCallDone(s, name, callId, arguments) else s;
      if kind == Str(AUDIO_DELTA) then OnAudioDelta(s1, delta) else s1
  }

  /** The model socket's `close` event: the handler only logs; the socket is
      CLOSED and nothing else changes. */
  function OnModelClose(s: Session): (r: Session)
    ensures r.modelSocket == Closed
    ensures r.streamSid == s.streamSid && r.telephonyOpen == s.telephonyOpen && r.pending == s.pending
    ensures r.toModel == s.toModel && r.toTelephony == s.toTelephony
  {
    s.(modelSocket := Closed)
  }

  /** The model socket's `error` event: the handler only logs; `ws` has
      already moved the socket to CLOSING. The telephony socket is left as is. */
  function OnModelError(s: Session): (r: Session)
    ensures r.modelSocket in {Closing, Closed}
    ensures s.modelSocket == Closed ==> r.modelSocket == Closed
    ensures r.streamSid == s.streamSid && r.telephonyOpen == s.telephonyOpen && r.pending == s.pending
    ensures r.toModel == s.toModel && r.toTelephony == s.toTelephony
  {
    s.(modelSocket := if s.modelSocket == Closed then Closed else Closing)
  }

  // ---------------------------------------------------------------------
  // The session object

  /** The per-connection closure of the `/media-stream` handler, one method
      per socket callback. */
  class RelaySession {
    var streamSid: Field
    var modelSocket: ReadyState
    var telephonyOpen: bool
    var pending: seq<Listener>
    var toModel: seq<ModelOutbound>
    var toTelephony: seq<TelephonyOutbound>

    function View(): Session
      reads this
    {
      Session(streamSid, modelSocket, telephonyOpen, pending, toModel, toTelephony)
    }

    /** A telephony connection was accepted and the model socket is dialling. */
    constructor ()
      ensures View() == Accepted
    {
      streamSid := Null;
      modelSocket := Connecting;
      telephonyOpen := true;
      pending := [];
      toModel := [];
      toTelephony := [];
    }

    method HandleTelephonyMessage(m: TelephonyMessage)
      modifies this
      ensures View() == OnTelephonyMessage(old(View()), m)
    {
      match m
      case TelephonyUnparsable =>
      case TelephonyFrame(event, media, start) =>
        if event == Str("media") {
          if modelSocket == Open && media.Some? {
            toModel := toModel + [AudioAppend(media.value.payload)];
          }
        } else if event == Str("start") {
          if start.Some? {
            streamSid := start.value.streamSid;
            match start.value.customParameters
            case None =>
            case Some(params) =>
              pending := pending + [Listener(params.name, params.phone)];
          }
        }
    }

    method HandleTelephonyClose()
      modifies this
      ensures View() == OnTelephonyClose(old(View()))
    {
      telephonyOpen := false;
      if modelSocket == Open {
        modelSocket := Closing;
      }
    }

    method HandleModelOpen()
      modifies this
      ensures View() == OnModelOpen(old(View()))
    {
      var rest, out := pending, toModel;
      while rest != []
        invariant out + Fire(rest) == old(toModel) + Fire(old(pending))
        decreases |rest|
        modifies {}
      {
        var update := SessionUpdateMessage(rest[0].name, rest[0].phone);
        assert Fire(rest) == [update] + Fire(rest[1..]);
        Associative(out, [update], Fire(rest[1..]));
        out, rest := out + [update], rest[1..];
      }
      assert out + [] == out;
      modelSocket, pending, toModel := Open, [], out;
    }

    method HandleModelMessage(m: ModelMessage)
      modifies this
      ensures View() == OnModelMessage(old(View()), m)
    {
      match m
      case ModelUnparsable =>
      case ModelEvent(kind, name, callId, arguments, delta) =>
        if kind == Str(FUNCTION_ARGUMENTS_DONE) {
          if name == Str(WEATHER_TOOL) {
            if arguments.Absent? || arguments.Null? {
              return;
            }
            toModel := toModel + [WeatherResult(callId)];
          }
        }
        if kind == Str(AUDIO_DELTA) && Truthy(delta) {
          toTelephony := toTelephony + [MediaFrame(streamSid, Reencoded(delta.s))];
        }
    }

    method HandleModelClose()
      modifies this
      ensures View() == OnModelClose(old(View()))
    {
      modelSocket := Closed;
    }

    method HandleModelError()
      modifies this
      ensures View() == OnModelError(old(View()))
    {
      if modelSocket != Closed {
        modelSocket := Closing;
      }
    }
  }
}
