/** The caller directory `callParams`: a map from a phone number to the
    caller's `{name}`, seeded at start-up, written by `/make-call` and read
    by `/incoming-call` to pass the caller's identity to the media stream. */
module CallerDirectory {
  import opened Js
  import opened Protocol

  /** The `{name}` object stored for a number. */
  datatype Caller = Caller(name: string)

  /** The entries present when the server starts. */
  const SEEDED: map<string, Caller> := map[
    "+593992520223" := Caller("David"),
    "+593992722256" := Caller("Emilio Rosado"),
    "+593995772424" := Caller("Kevin Rojas")]

  const MISSING_PARAMETERS: string := "Missing name or phone number"
  const CREATE_FAILED: string := "Error creating call: "

  /** What `client.calls.create` did: the call's SID, or the message of the
      error it threw. */
  datatype CallOutcome = Placed(sid: string) | CreateFailed(message: string)

  /** The HTTP reply of `/make-call`: an error status with a text body, or
      the JSON object `{message, callSid}`. */
  datatype Reply =
    | Rejected(status: nat, body: string)
    | Created(message: string, callSid: string)

  /** The two `<Parameter>` values `/incoming-call` puts in the TwiML
      `<Stream>`, as the text the template literal renders. */
  datatype StreamParameters = StreamParameters(name: string, phone: string)

  /** Every stored number and every stored name is a non-empty string:
      `/make-call` stores only truthy values and the seeds are non-empty. */
  predicate WellFormed(entries: map<string, Caller>)
  {
    forall k :: k in entries ==> k != "" && entries[k].name != ""
  }

  /** `callParams.get(key)`. Keys are strings, so `undefined` and `null`
      find nothing. */
  function Lookup(entries: map<string, Caller>, key: Field): (r: Option<Caller>)
    ensures r.Some? <==> key.Str? && key.s in entries
    ensures r.Some? ==> r.value == entries[key.s]
  {
    if key.Str? && key.s in entries then Some(entries[key.s]) else None
  }

  /** `const { name } = get(To) || get(From) || "desconocido"`: the `To`
      entry wins, then the `From` entry; destructuring the fallback string
      yields `undefined`. */
  function CallerName(entries: map<string, Caller>, to: Field, from: Field): (r: Field)
    ensures r != Null
    ensures r.Absent? <==> !(to.Str? && to.s in entries) && !(from.Str? && from.s in entries)
    ensures r.Str? ==> exists k :: k in entries && entries[k].name == r.s
  {
    match Lookup(entries, to)
    case Some(c) => Str(c.name)
    case None =>
      match Lookup(entries, from)
      case Some(c) => Str(c.name)
      case None => Absent
  }

  /** `request.body.To || "desconocido"`. */
  function CallerPhone(to: Field): (r: string)
    ensures r != ""
    ensures Truthy(to) ==> r == to.s
    ensures !Truthy(to) ==> r == PLACEHOLDER_PHONE
  {
    if Truthy(to) then to.s else PLACEHOLDER_PHONE
  }

  /** The parameters `/incoming-call` hands to the media stream. */
  function IncomingParameters(entries: map<string, Caller>, to: Field, from: Field): (r: StreamParameters)
    ensures r.phone != "" && (Truthy(to) ==> r.phone == to.s) && (!Truthy(to) ==> r.phone == PLACEHOLDER_PHONE)
    ensures to.Str? && to.s in entries ==> r.name == entries[to.s].name
    ensures !(to.Str? && to.s in entries) && from.Str? && from.s in entries ==> r.name == entries[from.s].name
    ensures !(to.Str? && to.s in entries) && !(from.Str? && from.s in entries) ==> r.name == "undefined"
  {
    StreamParameters(Stringify(CallerName(entries, to, from)), CallerPhone(to))
  }

  /** The directory after `/make-call`: `set(phone, {name})` when both are
      truthy, whatever the call creation then does. */
  function MakeCallEntries(entries: map<string, Caller>, name: Field, phone: Field): (r: map<string, Caller>)
    ensures !(Truthy(name) && Truthy(phone)) ==> r == entries
    ensures Truthy(name) && Truthy(phone) ==>
      r.Keys == entries.Keys + {phone.s} && r[phone.s] == Caller(name.s)
      && forall k :: k in entries && k != phone.s ==> r[k] == entries[k]
  {
    if Truthy(name) && Truthy(phone) then entries[phone.s := Caller(name.s)] else entries
  }

  /** The reply of `/make-call`. */
  function MakeCallReply(name: Field, phone: Field, outcome: CallOutcome): (r: Reply)
    ensures !(Truthy(name) && Truthy(phone)) <==> r == Rejected(400, MISSING_PARAMETERS)
    ensures r.Created? <==> Truthy(name) && Truthy(phone) && outcome.Placed?
    ensures r.Created? ==> r.callSid == outcome.sid
    ensures r.Rejected? && r.status == 500 <==> Truthy(name) && Truthy(phone) && outcome.CreateFailed?
  {
    if !Truthy(name) || !Truthy(phone) then Rejected(400, MISSING_PARAMETERS)
    else match outcome
      case Placed(sid) =>
        Created("Call created to " + name.s + " (" + phone.s + "). SID: " + sid, sid)
      case CreateFailed(message) => Rejected(500, CREATE_FAILED + message)
  }

  /** The `callParams` map of one server process. */
  class CallParams {
    var entries: map<string, Caller>

    predicate Valid()
      reads this
    {
      WellFormed(entries)
    }

    constructor ()
      ensures entries == SEEDED
      ensures Valid()
    {
      entries := SEEDED;
    }

    /** `POST /make-call` with form fields `name` and `phone`; `outcome` is
        what placing the call returns. */
    method MakeCall(name: Field, phone: Field, outcome: CallOutcome) returns (reply: Reply)
      requires Valid()
      modifies this
      ensures Valid()
      ensures entries == MakeCallEntries(old(entries), name, phone)
      ensures reply == MakeCallReply(name, phone, outcome)
    {
      if !Truthy(name) || !Truthy(phone) {
        return Rejected(400, MISSING_PARAMETERS);
      }
      entries := entries[phone.s := Caller(name.s)];
      match outcome
      case Placed(sid) =>
        reply := Created("Call created to " + name.s + " (" + phone.s + "). SID: " + sid, sid);
      case CreateFailed(message) =>
        reply := Rejected(500, CREATE_FAILED + message);
    }

    /** `/incoming-call` with form fields `To` and `From`. */
    method IncomingCall(to: Field, from: Field) returns (params: StreamParameters)
      requires Valid()
      ensures params == IncomingParameters(entries, to, from)
      ensures params.name == "undefined" || (params.name != "" && CallerName(entries, to, from) == Str(params.name))
    {
      params := IncomingParameters(entries, to, from);
    }
  }

  // ---------------------------------------------------------------------
  // Properties of the directory

  /** The seeded callers are found by their number, as `To` or as `From`. */
  lemma {:induction false} SeededCallersKnown(other: Field)
    ensures WellFormed(SEEDED)
    ensures CallerName(SEEDED, Str("+593992520223"), other) == Str("David")
    ensures CallerName(SEEDED, Str("+593992722256"), other) == Str("Emilio Rosado")
    ensures CallerName(SEEDED, Str("+593995772424"), other) == Str("Kevin Rojas")
    ensures !(other.Str? && other.s in SEEDED) ==>
      CallerName(SEEDED, other, Str("+593992520223")) == Str("David")
      && CallerName(SEEDED, other, Str("+593992722256")) == Str("Emilio Rosado")
      && CallerName(SEEDED, other, Str("+593995772424")) == Str("Kevin Rojas")
  {
  }

  /** A number stored by `/make-call` names its caller on the next incoming
      call to it, whether or not the call creation succeeded. */
  lemma {:induction false} MadeCallIsRecognised(entries: map<string, Caller>, name: string, phone: string, from: Field)
    requires name != "" && phone != ""
    ensures CallerName(MakeCallEntries(entries, Str(name), Str(phone)), Str(phone), from) == Str(name)
    ensures IncomingParameters(MakeCallEntries(entries, Str(name), Str(phone)), Str(phone), from)
         == StreamParameters(name, phone)
  {
  }

  /** A rejected `/make-call` leaves every lookup as it was. */
  lemma {:induction false} RejectedMakeCallChangesNothing(entries: map<string, Caller>, name: Field, phone: Field, outcome: CallOutcome, to: Field, from: Field)
    requires MakeCallReply(name, phone, outcome).Rejected? && MakeCallReply(name, phone, outcome).status == 400
    ensures CallerName(MakeCallEntries(entries, name, phone), to, from) == CallerName(entries, to, from)
  {
  }

  /** A stored `To` entry decides the name, whatever `From` is; without one
      the `From` entry decides it. */
  lemma {:induction false} ToTakesPrecedence(entries: map<string, Caller>, to: Field, from: Field)
    ensures to.Str? && to.s in entries ==> CallerName(entries, to, from) == Str(entries[to.s].name)
    ensures !(to.Str? && to.s in entries) ==> CallerName(entries, to, from) == CallerName(entries, from, Absent)
  {
  }

  /** A caller the directory does not know reaches the stream with the name
      text "undefined", which is not the placeholder `undefined` stands for:
      the model is told the caller's name is "undefined". */
  lemma {:induction false} UnknownCallerIsNamedUndefined(entries: map<string, Caller>, to: Field, from: Field)
    requires !(to.Str? && to.s in entries) && !(from.Str? && from.s in entries)
    ensures IncomingParameters(entries, to, from).name == "undefined"
    ensures var p := IncomingParameters(entries, to, from);
      Instructions(Str(p.name), Str(p.phone)) != Instructions(Absent, Str(p.phone))
  {
  }

  /** In a well-formed directory a name is either absent or a non-empty
      string, so the stream always carries a non-empty name text. */
  lemma {:induction false} NamesAreTruthyOrAbsent(entries: map<string, Caller>, to: Field, from: Field)
    requires WellFormed(entries)
    ensures CallerName(entries, to, from).Absent? || Truthy(CallerName(entries, to, from))
    ensures IncomingParameters(entries, to, from).name != ""
  {
  }
}
