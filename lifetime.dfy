/**
 * What the capabilities do over a request's lifetime: any sequence of calls that application
 * code makes on `req.expressData`, and the facts that hold after each one.
 */
module Lifetime {
  import opened Wrappers
  import opened Timing
  import opened Events

  /** One call on the capability bundle, with the clock reading it takes. */
  datatype Call =
    | RecordCall(name: string, now: HrTime)
    | StopCall(name: string, now: HrTime)
    | EndRequestCall(now: HrTime)
    | LogEventCall(name: string)
    | GetDataCall

  predicate Allowed(c: Call)
  {
    match c
    case RecordCall(name, _) => EventName(name)
    case StopCall(name, _) => EventName(name)
    case LogEventCall(name) => EventName(name)
    case EndRequestCall(_) => true
    case GetDataCall => true
  }

  predicate AllAllowed(calls: seq<Call>)
  {
    forall i :: 0 <= i < |calls| ==> Allowed(calls[i])
  }

  /** The bag after one call; `logEvent` and `getData` only read it. */
  function Apply(s: Session, c: Call): Session
    requires Allowed(c)
  {
    match c
    case RecordCall(name, now) => Recorded(s, name, now)
    case StopCall(name, now) => Stopped(s, name, now)
    case EndRequestCall(now) => Ended(s, now)
    case LogEventCall(_) => s
    case GetDataCall => s
  }

  /** The bag after the calls, in order. */
  function Run(s: Session, calls: seq<Call>): Session
    requires AllAllowed(calls)
    decreases |calls|
  {
    if calls == [] then s else Run(Apply(s, calls[0]), calls[1..])
  }

  /** The names the calls record. */
  function RecordedNames(calls: seq<Call>): set<string>
    decreases |calls|
  {
    if calls == [] then {}
    else (if calls[0].RecordCall? then {calls[0].name} else {}) + RecordedNames(calls[1..])
  }

  /** The clock reading of the last `endRequest` among the calls, or `last` when there is none. */
  function LastEnd(calls: seq<Call>, last: Option<HrTime>): Option<HrTime>
    decreases |calls|
  {
    if calls == [] then last
    else LastEnd(calls[1..], if calls[0].EndRequestCall? then Some(calls[0].now) else last)
  }

  /** No call changes the request's id, url, method or start time. */
  lemma {:induction false} RunKeepsIdentity(s: Session, calls: seq<Call>)
    requires AllAllowed(calls)
    ensures var r := Run(s, calls);
      r.uuid == s.uuid && r.url == s.url && r.httpMethod == s.httpMethod && r.startTime == s.startTime
    decreases |calls|
  {
    if calls != [] {
      RunKeepsIdentity(Apply(s, calls[0]), calls[1..]);
    }
  }

  /** Every call keeps the bag well formed. */
  lemma {:induction false} RunKeepsWellFormed(s: Session, calls: seq<Call>)
    requires AllAllowed(calls) && WellFormed(s)
    ensures WellFormed(Run(s, calls))
    decreases |calls|
  {
    if calls != [] {
      RunKeepsWellFormed(Apply(s, calls[0]), calls[1..]);
    }
  }

  /** Only `record` creates event entries, and no call removes one. */
  lemma {:induction false} RunEventNames(s: Session, calls: seq<Call>)
    requires AllAllowed(calls)
    ensures Run(s, calls).events.Keys == s.events.Keys + RecordedNames(calls)
    decreases |calls|
  {
    if calls != [] {
      RunEventNames(Apply(s, calls[0]), calls[1..]);
    }
  }

  /** With no closed guard, the session's stop time is the one stamped by the last `endRequest`. */
  lemma {:induction false} RunStopTime(s: Session, calls: seq<Call>)
    requires AllAllowed(calls)
    ensures Run(s, calls).stopTime == LastEnd(calls, s.stopTime)
    decreases |calls|
  {
    if calls != [] {
      var next := if calls[0].EndRequestCall? then Some(calls[0].now) else s.stopTime;
      assert Apply(s, calls[0]).stopTime == next;
      RunStopTime(Apply(s, calls[0]), calls[1..]);
    }
  }

  /** The bag a request ends up with: the fixed keys plus the recorded names, plus the stop keys once ended. */
  lemma RunKeysFromNew(uuid: string, req: Request, now: HrTime, calls: seq<Call>)
    requires AllAllowed(calls)
    ensures var r := Run(NewSession(uuid, req, now), calls);
      Keys(r) == FixedKeys + RecordedNames(calls)
        + (if LastEnd(calls, None).Some? then {"stopTime", "timeElapsed"} else {})
  {
    var s := NewSession(uuid, req, now);
    RunEventNames(s, calls);
    RunStopTime(s, calls);
    RunKeepsWellFormed(s, calls);
  }

  /** `record` then `stop` on a clock that did not run backwards gives a non-negative duration. */
  lemma RecordThenStop(s: Session, name: string, t1: HrTime, t2: HrTime)
    requires EventName(name) && Nanos(t1) <= Nanos(t2)
    ensures var e := Stopped(Recorded(s, name, t1), name, t2).events[name];
      e.startTime == Some(t1) && e.stopTime == Some(t2)
      && e.timeElapsed == Some(ElapsedMs(Some(t1), Some(t2)))
      && e.timeElapsed.value >= 0.0
  {
    ElapsedNonNegative(t1, t2);
  }

  /** A second `record` of a name warns and still re-stamps the start: the later stop measures from it. */
  lemma RecordTwiceRestamps(s: Session, name: string, t1: HrTime, t2: HrTime, t3: HrTime)
    requires EventName(name)
    ensures var s1 := Recorded(s, name, t1);
      && InitEffects(s1, name) == [Warn(ExistsWarning(name))]
      && Recorded(s1, name, t2).events[name].startTime == Some(t2)
      && Stopped(Recorded(s1, name, t2), name, t3).events[name].timeElapsed
         == Some(ElapsedMs(Some(t2), Some(t3)))
  {
  }

  /** A second `stop` re-stamps the stop time and recomputes the duration. */
  lemma StopTwiceRestamps(s: Session, name: string, t1: HrTime, t2: HrTime)
    requires EventName(name)
    ensures Stopped(Stopped(s, name, t1), name, t2) == Stopped(s, name, t2)
  {
  }

  /** A second `endRequest` re-stamps the session: the bag is that of one call at the later reading. */
  lemma EndRequestReruns(s: Session, t1: HrTime, t2: HrTime)
    ensures Ended(Ended(s, t1), t2) == Ended(s, t2)
  {
  }

  /** `record` after `stop` moves the start but keeps the earlier stop time and duration. */
  lemma RecordAfterStopKeepsDuration(s: Session, name: string, t1: HrTime, t2: HrTime, t3: HrTime)
    requires EventName(name)
    ensures Recorded(Stopped(Recorded(s, name, t1), name, t2), name, t3).events[name]
      == Event(Some(t3), Some(t2), Some(ElapsedMs(Some(t1), Some(t2))))
  {
  }

  /**
   * So after a re-`record` at a different instant the stored `timeElapsed` no longer agrees with
   * the stored `startTime` and `stopTime`.
   */
  lemma RecordAfterStopLeavesStaleElapsed(s: Session, name: string, t1: HrTime, t2: HrTime, t3: HrTime)
    requires EventName(name) && Normalized(t1) && Normalized(t3) && t1 != t3
    ensures var e := Recorded(Stopped(Recorded(s, name, t1), name, t2), name, t3).events[name];
      e.timeElapsed.Some? && e.timeElapsed.value != ElapsedMs(e.startTime, e.stopTime)
  {
    RecordAfterStopKeepsDuration(s, name, t1, t2, t3);
    NanosInjective(t1, t3);
  }
}
