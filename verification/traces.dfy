/** Runs of a relay session: the socket events delivered one at a time, and
    what every run sends, proved by induction over the run. */
module Traces {
  import opened Js
  import opened Protocol
  import opened Relay

  /** One callback invocation on the session. */
  datatype Event =
    | FromTelephony(frame: TelephonyMessage)
    | TelephonyClosed
    | ModelOpened
    | FromModel(message: ModelMessage)
    | ModelClosed
    | ModelErrored

  /** The events the sockets can deliver in a state: telephony events while
      that socket is open; `open` only while dialling; model messages while
      the model socket is OPEN or CLOSING; `close` after it left CONNECTING
      (a failed dial reports `error` first); `error` until it is CLOSED. */
  predicate Enabled(s: Session, e: Event)
  {
    match e
    case FromTelephony(_) => s.telephonyOpen
    case TelephonyClosed => s.telephonyOpen
    case ModelOpened => s.modelSocket == Connecting
    case FromModel(_) => s.modelSocket == Open || s.modelSocket == Closing
    case ModelClosed => s.modelSocket == Open || s.modelSocket == Closing
    case ModelErrored => s.modelSocket != Closed
  }

  /** The handler an event runs. */
  function Step(s: Session, e: Event): Session
  {
    match e
    case FromTelephony(m) => OnTelephonyMessage(s, m)
    case TelephonyClosed => OnTelephonyClose(s)
    case ModelOpened => OnModelOpen(s)
    case FromModel(m) => OnModelMessage(s, m)
    case ModelClosed => OnModelClose(s)
    case ModelErrored => OnModelError(s)
  }

  /** The state after handling `evs` in order, starting from `s`. */
  function Run(s: Session, evs: seq<Event>): Session
    decreases |evs|
  {
    if evs == [] then s else Run(Step(s, evs[0]), evs[1..])
  }

  /** Every event of `evs` can be delivered when it comes. */
  predicate ValidRun(s: Session, evs: seq<Event>)
    decreases |evs|
  {
    evs == [] || (Enabled(s, evs[0]) && ValidRun(Step(s, evs[0]), evs[1..]))
  }

  lemma {:induction false} RunAppend(s: Session, a: seq<Event>, b: seq<Event>)
    ensures Run(s, a + b) == Run(Run(s, a), b)
    ensures ValidRun(s, a + b) <==> ValidRun(s, a) && ValidRun(Run(s, a), b)
    decreases |a|
  {
    if a != [] {
      assert (a + b)[0] == a[0] && (a + b)[1..] == a[1..] + b;
      RunAppend(Step(s, a[0]), a[1..], b);
    } else {
      assert a + b == b;
    }
  }

  // ---------------------------------------------------------------------
  // What the outboxes hold

  /** The configurations among the messages sent to the model. */
  function Configs(out: seq<ModelOutbound>): (r: seq<SessionConfig>)
    ensures |r| <= |out|
  {
    if out == [] then []
    else (if out[0].SessionUpdate? then [out[0].session] else []) + Configs(out[1..])
  }

  /** The tool results among the messages sent to the model. */
  function ToolResults(out: seq<ModelOutbound>): (r: seq<ModelOutbound>)
    ensures |r| <= |out|
    ensures forall i :: 0 <= i < |r| ==> r[i].FunctionCallOutput?
  {
    if out == [] then []
    else (if out[0].FunctionCallOutput? then [out[0]] else []) + ToolResults(out[1..])
  }

  /** The deltas carried by the frames sent to telephony. */
  function FrameDeltas(out: seq<TelephonyOutbound>): (r: seq<string>)
    ensures |r| == |out|
    ensures forall i :: 0 <= i < |out| ==> r[i] == out[i].payload.delta
  {
    if out == [] then [] else [out[0].payload.delta] + FrameDeltas(out[1..])
  }

  lemma {:induction false} ConfigsAppend(a: seq<ModelOutbound>, b: seq<ModelOutbound>)
    ensures Configs(a + b) == Configs(a) + Configs(b)
    decreases |a|
  {
    if a == [] {
      assert a + b == b;
    } else {
      assert (a + b)[0] == a[0] && (a + b)[1..] == a[1..] + b;
      ConfigsAppend(a[1..], b);
    }
  }

  lemma {:induction false} ToolResultsAppend(a: seq<ModelOutbound>, b: seq<ModelOutbound>)
    ensures ToolResults(a + b) == ToolResults(a) + ToolResults(b)
    decreases |a|
  {
    if a == [] {
      assert a + b == b;
    } else {
      assert (a + b)[0] == a[0] && (a + b)[1..] == a[1..] + b;
      ToolResultsAppend(a[1..], b);
    }
  }

  lemma {:induction false} FrameDeltasAppend(a: seq<TelephonyOutbound>, b: seq<TelephonyOutbound>)
    ensures FrameDeltas(a + b) == FrameDeltas(a) + FrameDeltas(b)
  {
    var l, r := FrameDeltas(a + b), FrameDeltas(a) + FrameDeltas(b);
    forall i | 0 <= i < |l| ensures l[i] == r[i] {
      if i < |a| { assert (a + b)[i] == a[i]; } else { assert (a + b)[i] == b[i - |a|]; }
    }
  }

  /** Firing listeners sends configurations only. */
  lemma {:induction false} FireSendsNoToolResults(ls: seq<Listener>)
    ensures ToolResults(Fire(ls)) == []
    decreases |ls|
  {
    if ls != [] {
      var f := Fire(ls);
      assert f == [f[0]] + Fire(ls[1..]);
      ToolResultsAppend([f[0]], Fire(ls[1..]));
      FireSendsNoToolResults(ls[1..]);
    }
  }

  // ---------------------------------------------------------------------
  // What the events ask for

  /** The listener an event registers. */
  function Registration(e: Event): seq<Listener>
  {
    if e.FromTelephony? then Registers(e.frame) else []
  }

  /** The tool answer an event asks for. */
  function AnswerFor(e: Event): seq<ModelOutbound>
  {
    if e.FromModel? then AnswerDue(e.message) else []
  }

  /** The audio an event carries for the caller. */
  function AudioDelta(e: Event): seq<string>
  {
    if e.FromModel? then AudioReturned(e.message) else []
  }

  /** The listeners the `start` events of `evs` register, in order. */
  function Registrations(evs: seq<Event>): seq<Listener>
  {
    if evs == [] then [] else Registration(evs[0]) + Registrations(evs[1..])
  }

  /** The tool answers the events of `evs` ask for, in order. */
  function AnswersDue(evs: seq<Event>): seq<ModelOutbound>
  {
    if evs == [] then [] else AnswerFor(evs[0]) + AnswersDue(evs[1..])
  }

  /** The non-empty audio deltas the model sends in `evs`. */
  function AudioDeltas(evs: seq<Event>): seq<string>
  {
    if evs == [] then [] else AudioDelta(evs[0]) + AudioDeltas(evs[1..])
  }

  /** The `streamSid` an event assigns, if it is a `start` that reaches the
      assignment. */
  function StartedStream(e: Event): Option<Field>
  {
    if e.FromTelephony? then StreamStarted(e.frame) else None
  }

  /** The `streamSid` of the last `start` event of `evs`, or `initial`. */
  function LatestStreamSid(initial: Field, evs: seq<Event>): Field
    decreases |evs|
  {
    if evs == [] then initial
    else match StartedStream(evs[|evs| - 1])
      case Some(sid) => sid
      case None => LatestStreamSid(initial, evs[..|evs| - 1])
  }

  // ---------------------------------------------------------------------
  // One step

  lemma {:induction false} RunCons(s: Session, e: Event, rest: seq<Event>)
    ensures Run(s, [e] + rest) == Run(Step(s, e), rest)
    ensures ValidRun(s, [e] + rest) <==> Enabled(s, e) && ValidRun(Step(s, e), rest)
  {
    assert ([e] + rest)[0] == e && ([e] + rest)[1..] == rest;
  }

  lemma {:induction false} StepToolResults(s: Session, e: Event)
    ensures ToolResults(Step(s, e).toModel) == ToolResults(s.toModel) + AnswerFor(e)
  {
    match e
    case ModelOpened =>
      ToolResultsAppend(s.toModel, Fire(s.pending));
      FireSendsNoToolResults(s.pending);
    case FromModel(m) =>
      ToolResultsAppend(s.toModel, AnswerDue(m));
    case FromTelephony(m) =>
      ToolResultsAppend(s.toModel, if s.modelSocket == Open then AudioCarried(m) else []);
    case _ =>
  }

  lemma {:induction false} StepFrames(s: Session, e: Event)
    ensures FrameDeltas(Step(s, e).toTelephony) == FrameDeltas(s.toTelephony) + AudioDelta(e)
  {
    var t := Step(s, e);
    if |t.toTelephony| > |s.toTelephony| {
      assert t.toTelephony == s.toTelephony + [t.toTelephony[|s.toTelephony|]];
      FrameDeltasAppend(s.toTelephony, [t.toTelephony[|s.toTelephony|]]);
    }
  }

  lemma {:induction false} OpenConfigs(s: Session)
    ensures Configs(OnModelOpen(s).toModel) + Configs(Fire(OnModelOpen(s).pending))
         == Configs(s.toModel) + Configs(Fire(s.pending))
  {
    ConfigsAppend(s.toModel, Fire(s.pending));
    assert Fire([]) == [];
  }

  lemma {:induction false} TelephonyConfigs(s: Session, m: TelephonyMessage)
    ensures Configs(OnTelephonyMessage(s, m).toModel) + Configs(Fire(OnTelephonyMessage(s, m).pending))
         == Configs(s.toModel) + Configs(Fire(s.pending)) + Configs(Fire(Registers(m)))
  {
    var t, audio := OnTelephonyMessage(s, m), if s.modelSocket == Open then AudioCarried(m) else [];
    ConfigsAppend(s.toModel, audio);
    assert Configs(audio) == [];
    assert Configs(t.toModel) == Configs(s.toModel) + [] == Configs(s.toModel);
    FireAppend(s.pending, Registers(m));
    ConfigsAppend(Fire(s.pending), Fire(Registers(m)));
    Associative(Configs(s.toModel), Configs(Fire(s.pending)), Configs(Fire(Registers(m))));
  }

  lemma {:induction false} ModelMessageConfigs(s: Session, m: ModelMessage)
    ensures Configs(OnModelMessage(s, m).toModel) == Configs(s.toModel)
  {
    ConfigsAppend(s.toModel, AnswerDue(m));
  }

  lemma {:induction false} StepConfigs(s: Session, e: Event)
    ensures Configs(Step(s, e).toModel) + Configs(Fire(Step(s, e).pending))
         == Configs(s.toModel) + Configs(Fire(s.pending)) + Configs(Fire(Registration(e)))
  {
    assert Fire([]) == [];
    match e
    case ModelOpened => OpenConfigs(s);
    case FromTelephony(m) => TelephonyConfigs(s, m);
    case FromModel(m) => ModelMessageConfigs(s, m);
    case TelephonyClosed =>
    case ModelClosed =>
    case ModelErrored =>
  }

  // ---------------------------------------------------------------------
  // Properties of every run

  /** Every `get_weather` completion is answered exactly once, in order, with
      its own `call_id`, and nothing else produces a tool result. */
  lemma {:induction false} ToolResultsCorrelate(s: Session, evs: seq<Event>)
    ensures ToolResults(Run(s, evs).toModel) == ToolResults(s.toModel) + AnswersDue(evs)
    decreases |evs|
  {
    if evs != [] {
      StepToolResults(s, evs[0]);
      ToolResultsCorrelate(Step(s, evs[0]), evs[1..]);
    }
  }

  /** Every non-empty audio delta from the model becomes exactly one
      telephony frame carrying it, in order, and nothing else is sent to
      telephony. */
  lemma {:induction false} FramesFollowDeltas(s: Session, evs: seq<Event>)
    ensures FrameDeltas(Run(s, evs).toTelephony) == FrameDeltas(s.toTelephony) + AudioDeltas(evs)
    decreases |evs|
  {
    if evs != [] {
      StepFrames(s, evs[0]);
      FramesFollowDeltas(Step(s, evs[0]), evs[1..]);
    }
  }

  /** The configurations sent so far, followed by those the pending
      listeners would send when the model socket opens. */
  function Accounted(s: Session): seq<SessionConfig>
  {
    Configs(s.toModel) + Configs(Fire(s.pending))
  }

  lemma {:induction false} StepAccounted(s: Session, e: Event)
    ensures Accounted(Step(s, e)) == Accounted(s) + Configs(Fire(Registration(e)))
  {
    StepConfigs(s, e);
  }

  lemma {:induction false} RegistrationsCons(evs: seq<Event>)
    requires evs != []
    ensures Configs(Fire(Registrations(evs)))
         == Configs(Fire(Registration(evs[0]))) + Configs(Fire(Registrations(evs[1..])))
  {
    assert Registrations(evs) == Registration(evs[0]) + Registrations(evs[1..]);
    FireAppend(Registration(evs[0]), Registrations(evs[1..]));
    ConfigsAppend(Fire(Registration(evs[0])), Fire(Registrations(evs[1..])));
  }

  /** Every listener a `start` registers sends its configuration exactly
      once or is still pending: the configurations sent, followed by those
      the pending listeners would send, are those of all registrations in
      order. */
  lemma {:induction false} ListenersAccounted(s: Session, evs: seq<Event>)
    ensures Accounted(Run(s, evs)) == Accounted(s) + Configs(Fire(Registrations(evs)))
    decreases |evs|
  {
    if evs == [] {
      assert Fire([]) == [];
    } else {
      var t := Step(s, evs[0]);
      StepAccounted(s, evs[0]);
      ListenersAccounted(t, evs[1..]);
      RegistrationsCons(evs);
      Associative(Accounted(s), Configs(Fire(Registration(evs[0]))), Configs(Fire(Registrations(evs[1..]))));
    }
  }

  /** The model socket never goes back to CONNECTING. */
  lemma {:induction false} NeverRedials(s: Session, evs: seq<Event>)
    requires s.modelSocket != Connecting
    ensures Run(s, evs).modelSocket != Connecting
    decreases |evs|
  {
    if evs != [] {
      NeverRedials(Step(s, evs[0]), evs[1..]);
    }
  }

  /** Once the model socket has opened (or failed), no configuration is ever
      sent again: a `start` arriving after `open` registers a listener that
      never fires. */
  lemma {:induction false} NoConfigurationAfterOpen(s: Session, evs: seq<Event>)
    requires s.modelSocket != Connecting && ValidRun(s, evs)
    ensures Configs(Run(s, evs).toModel) == Configs(s.toModel)
    ensures s.pending <= Run(s, evs).pending
    decreases |evs|
  {
    if evs != [] {
      QuietStep(s, evs[0]);
      NoConfigurationAfterOpen(Step(s, evs[0]), evs[1..]);
    }
  }

  lemma {:induction false} QuietStep(s: Session, e: Event)
    requires s.modelSocket != Connecting && Enabled(s, e)
    ensures Configs(Step(s, e).toModel) == Configs(s.toModel)
    ensures s.pending <= Step(s, e).pending && Step(s, e).modelSocket != Connecting
  {
    match e
    case FromTelephony(m) =>
      var audio := if s.modelSocket == Open then AudioCarried(m) else [];
      ConfigsAppend(s.toModel, audio);
      assert Configs(audio) == [];
    case FromModel(m) => ModelMessageConfigs(s, m);
    case ModelOpened => assert false;
    case TelephonyClosed =>
    case ModelClosed =>
    case ModelErrored =>
  }

  /** While the model socket is dialling, nothing at all is sent to it and
      every `start` leaves its listener pending. */
  lemma {:induction false} SilentWhileDialling(s: Session, evs: seq<Event>)
    requires s.modelSocket == Connecting && ValidRun(s, evs)
    requires Run(s, evs).modelSocket == Connecting
    ensures Run(s, evs).toModel == s.toModel
    ensures Run(s, evs).pending == s.pending + Registrations(evs)
    decreases |evs|
  {
    if evs == [] {
      assert s.pending + [] == s.pending;
    } else {
      var e, t := evs[0], Step(s, evs[0]);
      if t.modelSocket != Connecting {
        NeverRedials(t, evs[1..]);
      }
      SilentWhileDialling(t, evs[1..]);
      assert t.pending == s.pending + Registration(e);
    }
  }

  lemma {:induction false} LatestStreamSidCons(initial: Field, e: Event, rest: seq<Event>)
    ensures LatestStreamSid(initial, [e] + rest)
         == LatestStreamSid(match StartedStream(e) case Some(sid) => sid case None => initial, rest)
    decreases |rest|
  {
    var evs := [e] + rest;
    if rest != [] {
      assert evs[|evs| - 1] == rest[|rest| - 1];
      assert evs[..|evs| - 1] == [e] + rest[..|rest| - 1];
      LatestStreamSidCons(initial, e, rest[..|rest| - 1]);
    } else {
      assert evs[..|evs| - 1] == [];
    }
  }

  /** `streamSid` is always that of the last `start` event, or its value
      before the run if there was none (`null` for a new session). */
  lemma {:induction false} StreamSidIsLatestStart(s: Session, evs: seq<Event>)
    ensures Run(s, evs).streamSid == LatestStreamSid(s.streamSid, evs)
    decreases |evs|
  {
    if evs != [] {
      var e, t := evs[0], Step(s, evs[0]);
      assert t.streamSid == match StartedStream(e) case Some(sid) => sid case None => s.streamSid;
      StreamSidIsLatestStart(t, evs[1..]);
      LatestStreamSidCons(s.streamSid, e, evs[1..]);
      assert evs == [e] + evs[1..];
    }
  }

  /** A frame sent for an audio delta is addressed to the stream of the last
      `start` before it, and to `null` when the call has not started. */
  lemma {:induction false} FrameAddressedToLatestStream(evs: seq<Event>, delta: string)
    requires delta != ""
    ensures var before := Run(Accepted, evs);
            var after := OnModelMessage(before, ModelEvent(Str(AUDIO_DELTA), Absent, Absent, Absent, Str(delta)));
            |after.toTelephony| == |before.toTelephony| + 1
            && after.toTelephony[|before.toTelephony|] == MediaFrame(LatestStreamSid(Null, evs), Reencoded(delta))
  {
    StreamSidIsLatestStart(Accepted, evs);
  }

  // ---------------------------------------------------------------------
  // Consequences for particular runs

  /** A `start` that arrives after the model socket opened is never turned
      into a configuration, whatever follows. */
  lemma {:induction false} StartAfterOpenIsNeverConfigured(start: StartBody, rest: seq<Event>)
    requires ValidRun(Accepted, [ModelOpened, FromTelephony(TelephonyFrame(Str("start"), None, Some(start)))] + rest)
    ensures Configs(Run(Accepted, [ModelOpened, FromTelephony(TelephonyFrame(Str("start"), None, Some(start)))] + rest).toModel) == []
  {
    var e1, e2 := ModelOpened, FromTelephony(TelephonyFrame(Str("start"), None, Some(start)));
    assert [e1, e2] + rest == [e1] + ([e2] + rest);
    RunCons(Accepted, e1, [e2] + rest);
    var s1 := Step(Accepted, e1);
    RunCons(s1, e2, rest);
    var s2 := Step(s1, e2);
    assert s2.toModel == [] && s2.modelSocket == Open;
    NoConfigurationAfterOpen(s2, rest);
  }

  /** A `start` before `open` is configured exactly once, when the socket
      opens, with the identity it carried. */
  lemma {:induction false} StartBeforeOpenIsConfiguredOnce(name: string, phone: string, sid: string)
    ensures var evs := [FromTelephony(TelephonyFrame(Str("start"), None,
                          Some(StartBody(Str(sid), Some(CustomParameters(Str(name), Str(phone))))))),
                        ModelOpened];
            ValidRun(Accepted, evs)
            && Run(Accepted, evs).toModel == [SessionUpdateMessage(Str(name), Str(phone))]
            && Run(Accepted, evs).pending == []
            && Run(Accepted, evs).streamSid == Str(sid)
  {
    var e1 := FromTelephony(TelephonyFrame(Str("start"), None,
                Some(StartBody(Str(sid), Some(CustomParameters(Str(name), Str(phone)))))));
    assert [e1, ModelOpened] == [e1] + ([ModelOpened] + []);
    RunCons(Accepted, e1, [ModelOpened]);
    var s1 := Step(Accepted, e1);
    RunCons(s1, ModelOpened, []);
    assert s1.pending == [Listener(Str(name), Str(phone))];
  }

  /** Two `start` events before `open` produce two configurations. */
  lemma {:induction false} TwoStartsTwoConfigurations(a: CustomParameters, b: CustomParameters)
    ensures var evs := [FromTelephony(TelephonyFrame(Str("start"), None, Some(StartBody(Absent, Some(a))))),
                        FromTelephony(TelephonyFrame(Str("start"), None, Some(StartBody(Absent, Some(b))))),
                        ModelOpened];
            Run(Accepted, evs).toModel
              == [SessionUpdateMessage(a.name, a.phone), SessionUpdateMessage(b.name, b.phone)]
  {
    var f1 := TelephonyFrame(Str("start"), None, Some(StartBody(Absent, Some(a))));
    var f2 := TelephonyFrame(Str("start"), None, Some(StartBody(Absent, Some(b))));
    var e1, e2 := FromTelephony(f1), FromTelephony(f2);
    assert [e1, e2, ModelOpened] == [e1] + ([e2] + ([ModelOpened] + []));
    RunCons(Accepted, e1, [e2, ModelOpened]);
    var s1 := OnTelephonyMessage(Accepted, f1);
    assert Registers(f1) == [Listener(a.name, a.phone)];
    RunCons(s1, e2, [ModelOpened]);
    var s2 := OnTelephonyMessage(s1, f2);
    assert Registers(f2) == [Listener(b.name, b.phone)];
    assert s2.toModel == [] && s2.modelSocket == Connecting;
    RunCons(s2, ModelOpened, []);
    FireAppend([Listener(a.name, a.phone)], [Listener(b.name, b.phone)]);
  }

  /** Audio reaches a model that was never configured when no `start` came
      before `open`. */
  lemma {:induction false} AudioWithoutConfiguration(payload: string)
    ensures var evs := [ModelOpened, FromTelephony(TelephonyFrame(Str("media"), Some(MediaBody(Str(payload))), None))];
            ValidRun(Accepted, evs)
            && Run(Accepted, evs).toModel == [AudioAppend(Str(payload))]
            && Configs(Run(Accepted, evs).toModel) == []
  {
    var e2 := FromTelephony(TelephonyFrame(Str("media"), Some(MediaBody(Str(payload))), None));
    assert [ModelOpened, e2] == [ModelOpened] + ([e2] + []);
    RunCons(Accepted, ModelOpened, [e2]);
    var s1 := Step(Accepted, ModelOpened);
    RunCons(s1, e2, []);
    assert s1.toModel == [] && s1.modelSocket == Open;
  }

  /** A caller who hangs up while the model socket is still dialling leaves
      that socket open once it connects: the relay never closes it. */
  lemma {:induction false} HangUpWhileDiallingLeavesModelOpen()
    ensures ValidRun(Accepted, [TelephonyClosed, ModelOpened])
    ensures Run(Accepted, [TelephonyClosed, ModelOpened]).modelSocket == Open
    ensures !Run(Accepted, [TelephonyClosed, ModelOpened]).telephonyOpen
  {
    assert [TelephonyClosed, ModelOpened] == [TelephonyClosed] + ([ModelOpened] + []);
    RunCons(Accepted, TelephonyClosed, [ModelOpened]);
    var s1 := Step(Accepted, TelephonyClosed);
    RunCons(s1, ModelOpened, []);
  }
}
