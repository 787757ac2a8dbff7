/**
 * The middleware itself: the `ExpressData` class, the mutable `events` object the interceptor
 * creates per request, and the bundle of closures it installs as `req.expressData`.
 *
 * Clock readings, the request id and the request are parameters. Console output and the calls
 * to the configured hook and to the caller's callback are appended to a ghost trace.
 */
module Middleware {
  import opened Wrappers
  import opened JsValues
  import opened Timing
  import opened Events

  /** The configuration object, when one is passed: its two recognised properties. */
  datatype Config = Config(verbose: JsValue, onEndRequest: JsValue)

  class ExpressData {
    var verbose: JsValue
    var onEndRequest: JsValue

    /** Both settings are `false` unless a configuration gives them a truthy value. */
    constructor (config: Option<Config>)
      ensures Truthy(verbose) <==> config.Some? && Truthy(config.value.verbose)
      ensures Truthy(onEndRequest) <==> config.Some? && Truthy(config.value.onEndRequest)
      ensures config.Some? && Truthy(config.value.verbose) ==> verbose == config.value.verbose
      ensures config.Some? && Truthy(config.value.onEndRequest) ==> onEndRequest == config.value.onEndRequest
      ensures !Truthy(verbose) ==> verbose == Bool(false)
      ensures !Truthy(onEndRequest) ==> onEndRequest == Bool(false)
    {
      verbose := if config.Some? then OrFalse(config.value.verbose) else Bool(false);
      onEndRequest := if config.Some? then OrFalse(config.value.onEndRequest) else Bool(false);
    }

    /** A fresh bag with the request's id, url, method and start time, and the closures over it. */
    method Interceptor(req: Request, uuid: string, now: HrTime) returns (data: RequestData)
      ensures fresh(data) && fresh(data.bag)
      ensures data.tracker == this && data.req == req && data.trace == []
      ensures data.bag.Value() == NewSession(uuid, req, now)
      ensures data.Valid()
    {
      var bag := new EventBag(uuid, req, now);
      data := new RequestData(this, req, bag);
    }
  }

  /** The object `events`: session fields and one entry per event name, updated in place. */
  class EventBag {
    var uuid: string
    var url: string
    var httpMethod: string
    var startTime: HrTime
    var stopTime: Option<HrTime>
    var timeElapsed: Option<real>
    var events: map<string, Event>

    function Value(): Session
      reads this
    {
      Session(uuid, url, httpMethod, startTime, stopTime, timeElapsed, events)
    }

    constructor (uuid: string, req: Request, now: HrTime)
      ensures Value() == NewSession(uuid, req, now)
    {
      this.uuid := uuid;
      url := req.url;
      httpMethod := req.httpMethod;
      startTime := now;
      stopTime := None;
      timeElapsed := None;
      events := map[];
    }
  }

  /** `req.expressData`: the closures over one request's bag. */
  class RequestData {
    const tracker: ExpressData
    const req: Request
    const bag: EventBag
    ghost var trace: seq<Effect>

    ghost predicate Valid()
      reads this, bag
    {
      WellFormed(bag.Value())
    }

    constructor (tracker: ExpressData, req: Request, bag: EventBag)
      ensures this.tracker == tracker && this.req == req && this.bag == bag && trace == []
    {
      this.tracker := tracker;
      this.req := req;
      this.bag := bag;
      trace := [];
    }

    /**
     * `init(name)`: the private closure behind `record`. It is not part of `req.expressData`;
     * only `Record` calls it, and on its own it leaves a new entry without a start.
     */
    method Init(name: string)
      requires EventName(name)
      modifies bag`events, this`trace
      ensures bag.Value() == Initialized(old(bag.Value()), name)
      ensures trace == old(trace) + InitEffects(old(bag.Value()), name)
    {
      if name !in bag.events {
        bag.events := bag.events[name := EmptyEvent];
      } else {
        trace := trace + [Warn(ExistsWarning(name))];
      }
    }

    /** `record(name)`. */
    method Record(name: string, now: HrTime)
      requires Valid() && EventName(name)
      modifies bag`events, this`trace
      ensures Valid()
      ensures bag.Value() == Recorded(old(bag.Value()), name, now)
      ensures trace == old(trace) + InitEffects(old(bag.Value()), name)
    {
      Init(name);
      var e := bag.events[name];
      bag.events := bag.events[name := e.(startTime := Some(now))];
    }

    /** `stop(name)`; when the tracker is verbose it ends with `logEvent(name)`, which may throw. */
    method Stop(name: string, now: HrTime) returns (outcome: Outcome)
      requires Valid() && EventName(name)
      modifies bag`events, this`trace
      ensures Valid()
      ensures bag.Value() == Stopped(old(bag.Value()), name, now)
      ensures var rep := StopReport(old(bag.Value()), name, now, Truthy(tracker.verbose));
        trace == old(trace) + rep.effects && outcome == rep.outcome
    {
      if name !in bag.events {
        trace := trace + [Warn(NotCreatedWarning(name))];
      } else {
        var e := bag.events[name].(stopTime := Some(now));
        bag.events := bag.events[name := e.(timeElapsed := Some(ElapsedMs(e.startTime, e.stopTime)))];
      }
      outcome := Returned;
      if Truthy(tracker.verbose) {
        outcome := LogEvent(name);
      }
    }

    /**
     * `endRequest(cb)`: stamps the session, then calls the hook and the callback. There is no
     * guard, so every call stamps again and calls both again.
     */
    method EndRequest(cb: JsValue, now: HrTime) returns (outcome: Outcome)
      requires Valid()
      modifies bag`stopTime, bag`timeElapsed, this`trace
      ensures Valid()
      ensures bag.Value() == Ended(old(bag.Value()), now)
      ensures var rep := EndReport(tracker.onEndRequest, cb, req);
        trace == old(trace) + rep.effects && outcome == rep.outcome
    {
      bag.stopTime := Some(now);
      bag.timeElapsed := Some(ElapsedMs(Some(bag.startTime), bag.stopTime));
      var hook := tracker.onEndRequest;
      if Truthy(hook) {
        if !Callable(hook) {
          return ThrewTypeError;
        }
        trace := trace + [OnEndRequestCalled(req)];
      }
      if Truthy(cb) {
        if !Callable(cb) {
          return ThrewTypeError;
        }
        trace := trace + [CallbackCalled];
      }
      outcome := Returned;
    }

    /** `logEvent(name)`: reading `timeElapsed` of a missing entry throws. */
    method LogEvent(name: string) returns (outcome: Outcome)
      requires EventName(name)
      modifies this`trace
      ensures var rep := LogReport(bag.Value(), name);
        trace == old(trace) + rep.effects && outcome == rep.outcome
    {
      if name !in bag.events {
        return ThrewTypeError;
      }
      trace := trace + [Info(name, bag.events[name].timeElapsed)];
      outcome := Returned;
    }

    /** `getData()`: the live bag itself, not a copy, so later calls show through it. */
    method GetData() returns (data: EventBag)
      ensures data == bag
    {
      data := bag;
    }
  }
}
