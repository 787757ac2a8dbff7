/**
 * The per-request bag `events` as a value, and what each capability closure does to it.
 *
 * In the source the bag is one untyped object whose own keys are the session fields
 * (`uuid`, `url`, `method`, `startTime`, later `stopTime` and `timeElapsed`) and, beside
 * them, one key per event name. A `Session` holds the session fields by name and the event
 * entries in `events`; `Keys` gives back the object's key set.
 */
module Events {
  import opened Wrappers
  import opened Timing
  import opened JsValues

  /** The request fields the bag copies (`httpMethod` is the property `method`). */
  datatype Request = Request(url: string, httpMethod: string)

  /** An event entry: `{}` when created, then `startTime`, `stopTime` and `timeElapsed`. */
  datatype Event = Event(startTime: Option<HrTime>, stopTime: Option<HrTime>, timeElapsed: Option<real>)

  /** The entry `init` creates: an object without properties. */
  const EmptyEvent: Event := Event(None, None, None)

  datatype Session = Session(
    uuid: string,
    url: string,
    httpMethod: string,
    startTime: HrTime,
    stopTime: Option<HrTime>,
    timeElapsed: Option<real>,
    events: map<string, Event>)

  /** The keys every bag has from creation on. */
  const FixedKeys: set<string> := {"uuid", "url", "method", "startTime"}

  /** Every key the session itself writes. */
  const SessionKeys: set<string> := FixedKeys + {"stopTime", "timeElapsed"}

  /** Properties a plain object inherits from Object.prototype: `events[k]` is truthy for them. */
  const PrototypeKeys: set<string> := {
    "constructor", "hasOwnProperty", "isPrototypeOf", "propertyIsEnumerable",
    "toString", "toLocaleString", "valueOf", "__proto__",
    "__defineGetter__", "__defineSetter__", "__lookupGetter__", "__lookupSetter__"
  }

  /** A name that, used as an event name, neither hits a session field nor an inherited property. */
  predicate EventName(name: string)
  {
    name !in SessionKeys && name !in PrototypeKeys
  }

  /** The own keys of the bag object. */
  function Keys(s: Session): set<string>
  {
    FixedKeys
    + (if s.stopTime.Some? then {"stopTime"} else {})
    + (if s.timeElapsed.Some? then {"timeElapsed"} else {})
    + s.events.Keys
  }

  /** A recorded event has a start, and a stop time exactly when it has an elapsed time. */
  predicate EventWellFormed(e: Event)
  {
    e.startTime.Some? && (e.stopTime.Some? <==> e.timeElapsed.Some?)
  }

  /** What every bag reachable through the capabilities satisfies. */
  predicate WellFormed(s: Session)
  {
    && (s.stopTime.Some? <==> s.timeElapsed.Some?)
    && forall name :: name in s.events ==> EventName(name) && EventWellFormed(s.events[name])
  }

  /** What a closure leaves behind besides its change to the bag. */
  datatype Effect =
    | Warn(message: string)                    // console.warn
    | Info(name: string, elapsed: Option<real>) // console.info of `<name>: (<elapsed>ms)`
    | OnEndRequestCalled(req: Request)          // the configured hook, called with the request
    | CallbackCalled                            // the callback given to endRequest

  /** Whether the closure returned or a TypeError escaped from it. */
  datatype Outcome = Returned | ThrewTypeError

  datatype Report = Report(effects: seq<Effect>, outcome: Outcome)

  function ExistsWarning(name: string): string
  {
    "An event with name " + name + " has already been created."
  }

  function NotCreatedWarning(name: string): string
  {
    "An event with name " + name + " has NOT been created. Use the record method to created it."
  }

  /** The object literal the interceptor builds for a request. */
  function NewSession(uuid: string, req: Request, now: HrTime): (s: Session)
    ensures Keys(s) == FixedKeys
    ensures s.events == map[]
    ensures s.uuid == uuid && s.url == req.url && s.httpMethod == req.httpMethod && s.startTime == now
    ensures WellFormed(s)
  {
    Session(uuid, req.url, req.httpMethod, now, None, None, map[])
  }

  /** `init(name)`: an empty entry for a new name; a known name is left alone. */
  function Initialized(s: Session, name: string): (r: Session)
    requires EventName(name)
    ensures r.(events := s.events) == s
    ensures r.events.Keys == s.events.Keys + {name}
    ensures name in s.events ==> r == s
    ensures name !in s.events ==> r.events[name] == EmptyEvent
    ensures forall k :: k in s.events ==> r.events[k] == s.events[k]
  {
    if name in s.events then s else s.(events := s.events[name := EmptyEvent])
  }

  /** The warnings `init(name)` emits: one exactly when the name is already taken. */
  function InitEffects(s: Session, name: string): (effects: seq<Effect>)
    ensures |effects| <= 1
    ensures effects != [] <==> name in s.events
    ensures forall i :: 0 <= i < |effects| ==> effects[i] == Warn(ExistsWarning(name))
  {
    if name in s.events then [Warn(ExistsWarning(name))] else []
  }

  /** `record(name)`: `init(name)`, then the entry's `startTime` is stamped, known name or not. */
  function Recorded(s: Session, name: string, now: HrTime): (r: Session)
    requires EventName(name)
    ensures r.(events := s.events) == s
    ensures r.events.Keys == s.events.Keys + {name}
    ensures Keys(r) == Keys(s) + {name}
    ensures r.events[name].startTime == Some(now)
    ensures name !in s.events ==> r.events[name].stopTime.None? && r.events[name].timeElapsed.None?
    ensures name in s.events ==>
      r.events[name].stopTime == s.events[name].stopTime
      && r.events[name].timeElapsed == s.events[name].timeElapsed
    ensures forall k :: k in s.events && k != name ==> r.events[k] == s.events[k]
    ensures WellFormed(s) ==> WellFormed(r)
  {
    var t := Initialized(s, name);
    t.(events := t.events[name := t.events[name].(startTime := Some(now))])
  }

  /** `stop(name)`: a known entry gets its stop time and elapsed milliseconds; otherwise nothing. */
  function Stopped(s: Session, name: string, now: HrTime): (r: Session)
    requires EventName(name)
    ensures r.(events := s.events) == s
    ensures r.events.Keys == s.events.Keys
    ensures Keys(r) == Keys(s)
    ensures name !in s.events ==> r == s
    ensures name in s.events ==>
      && r.events[name].startTime == s.events[name].startTime
      && r.events[name].stopTime == Some(now)
      && r.events[name].timeElapsed.Some?
    ensures name in s.events && s.events[name].startTime.Some? ==>
      r.events[name].timeElapsed.value * 1_000_000.0
      == (Nanos(now) - Nanos(s.events[name].startTime.value)) as real
    ensures name in s.events && s.events[name].startTime.None? ==>
      r.events[name].timeElapsed == Some(0.0)
    ensures forall k :: k in s.events && k != name ==> r.events[k] == s.events[k]
    ensures WellFormed(s) ==> WellFormed(r)
  {
    if name !in s.events then s
    else
      var e := s.events[name];
      var e' := e.(stopTime := Some(now));
      s.(events := s.events[name := e'.(timeElapsed := Some(ElapsedMs(e'.startTime, e'.stopTime)))])
  }

  /** `logEvent(name)`: logs the entry's `timeElapsed`, undefined before `stop`; an unknown name throws. */
  function LogReport(s: Session, name: string): (rep: Report)
    requires EventName(name)
    ensures rep.outcome == Returned <==> name in s.events
    ensures name in s.events ==> rep.effects == [Info(name, s.events[name].timeElapsed)]
    ensures name !in s.events ==> rep.effects == []
  {
    if name in s.events then Report([Info(name, s.events[name].timeElapsed)], Returned)
    else Report([], ThrewTypeError)
  }

  /**
   * What `stop(name)` emits: the "NOT been created" warning for an unknown name, then, when
   * verbose, whatever `logEvent(name)` does on the updated bag.
   */
  function StopReport(s: Session, name: string, now: HrTime, verbose: bool): (rep: Report)
    requires EventName(name)
    ensures rep.outcome == ThrewTypeError <==> verbose && name !in s.events
    ensures name !in s.events ==> rep.effects == [Warn(NotCreatedWarning(name))]
    ensures name in s.events && !verbose ==> rep.effects == []
    ensures name in s.events && verbose ==>
      rep.effects == [Info(name, Some(Stopped(s, name, now).events[name].timeElapsed.value))]
  {
    var warned := if name in s.events then [] else [Warn(NotCreatedWarning(name))];
    if verbose then
      var log := LogReport(Stopped(s, name, now), name);
      Report(warned + log.effects, log.outcome)
    else
      Report(warned, Returned)
  }

  /** `endRequest()`: the session gets its stop time and total elapsed time; events are untouched. */
  function Ended(s: Session, now: HrTime): (r: Session)
    ensures r.(stopTime := s.stopTime, timeElapsed := s.timeElapsed) == s
    ensures r.stopTime == Some(now)
    ensures r.timeElapsed.Some?
    ensures r.timeElapsed.value * 1_000_000.0 == (Nanos(now) - Nanos(s.startTime)) as real
    ensures Keys(r) == Keys(s) + {"stopTime", "timeElapsed"}
    ensures WellFormed(s) ==> WellFormed(r)
  {
    var s' := s.(stopTime := Some(now));
    s'.(timeElapsed := Some(ElapsedMs(Some(s'.startTime), s'.stopTime)))
  }

  /**
   * The calls `endRequest(cb)` makes after stamping: the hook `onEndRequest(req)` when it is
   * truthy, then `cb()` when it is truthy. Calling a truthy value that is not a function throws,
   * and nothing after the throw happens.
   */
  function EndReport(hook: JsValue, cb: JsValue, req: Request): (rep: Report)
    ensures OnEndRequestCalled(req) in rep.effects <==> Callable(hook)
    ensures CallbackCalled in rep.effects <==> Callable(cb) && (Callable(hook) || !Truthy(hook))
    ensures forall i :: 0 <= i < |rep.effects| ==>
      rep.effects[i] == OnEndRequestCalled(req) || rep.effects[i] == CallbackCalled
    ensures |rep.effects| == (if Callable(hook) then 1 else 0) + (if CallbackCalled in rep.effects then 1 else 0)
    ensures Callable(hook) && Callable(cb) ==> rep.effects == [OnEndRequestCalled(req), CallbackCalled]
    ensures rep.outcome == Returned <==> (Callable(hook) || !Truthy(hook)) && (Callable(cb) || !Truthy(cb))
  {
    var hookCall := if Callable(hook) then [OnEndRequestCalled(req)] else [];
    if Truthy(hook) && !Callable(hook) then Report([], ThrewTypeError)
    else if Truthy(cb) && !Callable(cb) then Report(hookCall, ThrewTypeError)
    else Report(hookCall + (if Callable(cb) then [CallbackCalled] else []), Returned)
  }
}
