/** The admission of requests: a token bucket over a monotone clock, and a bound on requests in flight. */
module TokenBucket {
  type Id = nat

  /** The class attributes of a boundary: each kind of boundary has its own. */
  datatype Config = Config(burst: real, refill: real, concurrency: nat) {
    predicate Valid() {
      burst >= 0.0 && refill >= 0.0
    }
  }

  type Limits = c: Config | c.Valid() witness Config(0.0, 0.0, 0)

  const PUBLIC_READ: Limits := Config(60.0, 2.0, 8)
  const PAGE_ASSETS: Limits := Config(120.0, 8.0, 32)

  datatype Bucket = Bucket(tokens: real, last: real, active: int)

  function Min(a: real, b: real): real {
    if a <= b then a else b
  }

  /** What flows into a bucket between two times. */
  function Flow(c: Limits, since: real, now: real): real {
    (now - since) * c.refill
  }

  function Refilled(c: Limits, b: Bucket, now: real): Bucket {
    b.(tokens := Min(c.burst, b.tokens + Flow(c, b.last, now)), last := now)
  }

  predicate Admits(c: Limits, b: Bucket, now: real) {
    b.active < c.concurrency && Refilled(c, b, now).tokens >= 1.0
  }

  function Arrived(c: Limits, b: Bucket, now: real): Bucket {
    var r := Refilled(c, b, now);
    if Admits(c, b, now) then r.(tokens := r.tokens - 1.0, active := r.active + 1) else r
  }

  class Boundary {
    const limits: Limits
    var tokens: real
    var last: real
    var active: int

    ghost function View(): Bucket
      reads this
    {
      Bucket(tokens, last, active)
    }

    constructor (limits: Limits, now: real)
      ensures this.limits == limits && View() == Bucket(limits.burst, now, 0)
    {
      this.limits, tokens, last, active := limits, limits.burst, now, 0;
    }

    method Arrive(now: real) returns (admitted: bool)
      modifies this
      ensures View() == Arrived(limits, old(View()), now) && admitted == Admits(limits, old(View()), now)
    {
      assert (now - last) * limits.refill == Flow(limits, last, now);
      tokens := Min(limits.burst, tokens + (now - last) * limits.refill);
      last := now;
      if active >= limits.concurrency || tokens < 1.0 { return false; }
      tokens := tokens - 1.0;
      active := active + 1;
      return true;
    }

    method Finish()
      modifies `active
      ensures View() == old(View()).(active := old(active) - 1)
    {
      active := active - 1;
    }
  }

  // ---- runs

  /** A request arrives at a time, or one that is in flight ends. */
  datatype Event = Arrive(id: Id, now: real) | Finish(id: Id)

  datatype System = System(bucket: Bucket, inFlight: set<Id>)

  /** A boundary as it is constructed. */
  function Opened(c: Limits, now: real): System {
    System(Bucket(c.burst, now, 0), {})
  }

  predicate Admitted(c: Limits, y: System, e: Event) {
    e.Arrive? && e.id !in y.inFlight && Admits(c, y.bucket, e.now)
  }

  function Next(c: Limits, y: System, e: Event): System {
    match e
    case Arrive(id, now) =>
      if id in y.inFlight then y
      else System(Arrived(c, y.bucket, now), if Admits(c, y.bucket, now) then y.inFlight + {id} else y.inFlight)
    case Finish(id) =>
      if id in y.inFlight then System(y.bucket.(active := y.bucket.active - 1), y.inFlight - {id}) else y
  }

  function Run(c: Limits, y: System, events: seq<Event>): System
    decreases |events|
  {
    if events == [] then y else Run(c, Next(c, y, events[0]), events[1..])
  }

  /** The clock never runs backwards. */
  ghost predicate Monotone(last: real, events: seq<Event>)
    decreases |events|
  {
    events != [] ==>
      if events[0].Arrive? then last <= events[0].now && Monotone(events[0].now, events[1..])
      else Monotone(last, events[1..])
  }

  predicate Sound(c: Limits, y: System) {
    0.0 <= y.bucket.tokens <= c.burst && y.bucket.active == |y.inFlight| && |y.inFlight| <= c.concurrency
  }

  lemma FlowAdds(c: Limits, x: real, y: real, z: real)
    ensures Flow(c, x, z) == Flow(c, x, y) + Flow(c, y, z)
    ensures x <= y ==> Flow(c, x, y) >= 0.0
  {
  }

  lemma NextSound(c: Limits, y: System, e: Event)
    requires Sound(c, y) && (e.Arrive? ==> y.bucket.last <= e.now)
    ensures Sound(c, Next(c, y, e))
  {
    hide Flow;
    if e.Arrive? {
      FlowAdds(c, y.bucket.last, e.now, e.now);
    }
  }

  /** Tokens stay within the bucket, and `active` counts the requests in flight, within the limit. */
  lemma {:induction false} RunSound(c: Limits, y: System, events: seq<Event>)
    requires Sound(c, y) && Monotone(y.bucket.last, events)
    ensures Sound(c, Run(c, y, events))
    decreases |events|
  {
    hide Sound, Next;
    if events != [] {
      NextSound(c, y, events[0]);
      SkipsTime(c, y, events);
      RunSound(c, Next(c, y, events[0]), events[1..]);
    }
  }

  lemma SkipsTime(c: Limits, y: System, events: seq<Event>)
    requires events != [] && Monotone(y.bucket.last, events)
    ensures Monotone(Next(c, y, events[0]).bucket.last, events[1..])
  {
    hide Flow;
    var e := events[0];
    if e.Arrive? && e.id in y.inFlight {
      MonotoneEarlier(y.bucket.last, e.now, events[1..]);
    }
  }

  lemma {:induction false} MonotoneEarlier(a: real, b: real, events: seq<Event>)
    requires a <= b && Monotone(b, events)
    ensures Monotone(a, events)
    decreases |events|
  {
    if events != [] && events[0].Finish? {
      MonotoneEarlier(a, b, events[1..]);
    }
  }

  /** The requests admitted in a window of time, over the whole run. */
  function AdmittedIn(c: Limits, y: System, events: seq<Event>, from: real, to: real): nat
    decreases |events|
  {
    if events == [] then 0
    else (if Admitted(c, y, events[0]) && from <= events[0].now <= to then 1 else 0)
         + AdmittedIn(c, Next(c, y, events[0]), events[1..], from, to)
  }

  lemma {:induction false} NothingLater(c: Limits, y: System, events: seq<Event>, from: real, to: real, last: real)
    requires Monotone(last, events) && to < last
    ensures AdmittedIn(c, y, events, from, to) == 0
    decreases |events|
  {
    hide Next, Admits;
    if events != [] {
      var e := events[0];
      NothingLater(c, Next(c, y, e), events[1..], from, to, if e.Arrive? then e.now else last);
    }
  }

  /** One step: what is admitted is paid out of the bucket and of what has flowed in. */
  lemma StepPays(c: Limits, y: System, e: Event)
    requires Sound(c, y) && (e.Arrive? ==> y.bucket.last <= e.now)
    ensures var b := Next(c, y, e).bucket;
      && b.tokens + (if Admitted(c, y, e) then 1.0 else 0.0) <= y.bucket.tokens + Flow(c, y.bucket.last, b.last)
      && y.bucket.last <= b.last && b.last <= (if e.Arrive? then e.now else y.bucket.last)
  {
    hide Flow;
    FlowAdds(c, y.bucket.last, y.bucket.last, y.bucket.last);
    if e.Arrive? {
      FlowAdds(c, y.bucket.last, e.now, e.now);
    }
  }

  /** From any state: what the bucket holds, and what flows in until the end of the window. */
  lemma {:induction false} Potential(c: Limits, y: System, events: seq<Event>, from: real, to: real)
    requires Sound(c, y) && Monotone(y.bucket.last, events) && y.bucket.last <= to
    ensures AdmittedIn(c, y, events, from, to) as real <= y.bucket.tokens + Flow(c, y.bucket.last, to)
    decreases |events|
  {
    hide Flow, Next, Admitted;
    FlowAdds(c, y.bucket.last, to, to);
    if events != [] {
      var e := events[0];
      NextSound(c, y, e);
      SkipsTime(c, y, events);
      if e.Arrive? && e.now > to {
        NothingLater(c, Next(c, y, e), events[1..], from, to, e.now);
      } else {
        StepPays(c, y, e);
        Potential(c, Next(c, y, e), events[1..], from, to);
        FlowAdds(c, y.bucket.last, Next(c, y, e).bucket.last, to);
      }
    }
  }

  /** A request that arrives leaves the bucket filled up to its own time. */
  lemma ArrivalFills(c: Limits, y: System, e: Event)
    requires Sound(c, y) && e.Arrive? && e.id !in y.inFlight && y.bucket.last <= e.now
    ensures var b := Next(c, y, e).bucket;
      b.last == e.now && b.tokens + (if Admitted(c, y, e) then 1.0 else 0.0) <= c.burst
  {
    hide Flow;
  }

  /** In every window, however it lies in the run: the burst and the refill of its length. */
  lemma {:induction false} WindowBound(c: Limits, y: System, events: seq<Event>, from: real, to: real)
    requires Sound(c, y) && Monotone(y.bucket.last, events) && from <= to
    ensures AdmittedIn(c, y, events, from, to) as real <= c.burst + (to - from) * c.refill
    decreases |events|
  {
    assert (to - from) * c.refill == Flow(c, from, to);
    hide Flow, Next, Admits, Sound;
    FlowAdds(c, from, to, to);
    if events != [] {
      var e := events[0];
      NextSound(c, y, e);
      SkipsTime(c, y, events);
      if e.Arrive? && e.now > to {
        NothingLater(c, Next(c, y, e), events[1..], from, to, e.now);
      } else if e.Arrive? && from <= e.now && e.id !in y.inFlight {
        ArrivalFills(c, y, e);
        Potential(c, Next(c, y, e), events[1..], from, to);
        FlowAdds(c, from, e.now, to);
      } else {
        WindowBound(c, Next(c, y, e), events[1..], from, to);
      }
    }
  }

  /** From the opening of a boundary on. */
  lemma BoundaryBound(c: Limits, start: real, events: seq<Event>, from: real, to: real)
    requires Monotone(start, events) && from <= to
    ensures AdmittedIn(c, Opened(c, start), events, from, to) as real <= c.burst + (to - from) * c.refill
    ensures Sound(c, Run(c, Opened(c, start), events))
  {
    hide Monotone, AdmittedIn, Run;
    assert Sound(c, Opened(c, start));
    hide Sound;
    WindowBound(c, Opened(c, start), events, from, to);
    RunSound(c, Opened(c, start), events);
  }

  // ---- nothing is refused that the bound allows

  lemma {:induction false} RunMore(c: Limits, y: System, events: seq<Event>, e: Event)
    ensures Run(c, y, events + [e]) == Next(c, Run(c, y, events), e)
    decreases |events|
  {
    hide Next;
    if events == [] {
      assert [e][1..] == [] && events + [e] == [e];
      assert Run(c, y, [e]) == Run(c, Next(c, y, e), []);
    } else {
      assert (events + [e])[1..] == events[1..] + [e];
      RunMore(c, Next(c, y, events[0]), events[1..], e);
    }
  }

  /** How much a request adds to the count of a window. */
  function Counts(c: Limits, y: System, e: Event, from: real, to: real): nat {
    if Admitted(c, y, e) && from <= e.now <= to then 1 else 0
  }

  lemma {:induction false} AdmittedMore(c: Limits, y: System, events: seq<Event>, e: Event, from: real, to: real)
    ensures AdmittedIn(c, y, events + [e], from, to)
         == AdmittedIn(c, y, events, from, to) + Counts(c, Run(c, y, events), e, from, to)
    decreases |events|
  {
    hide Next, Admitted;
    if events == [] {
      assert [e][1..] == [] && events + [e] == [e];
      assert AdmittedIn(c, Next(c, y, e), [], from, to) == 0;
    } else {
      assert (events + [e])[1..] == events[1..] + [e];
      AdmittedMore(c, Next(c, y, events[0]), events[1..], e, from, to);
    }
  }

  lemma {:induction false} AdmittedLonger(c: Limits, y: System, events: seq<Event>, from: real, to: real, later: real)
    requires to <= later
    ensures AdmittedIn(c, y, events, from, to) <= AdmittedIn(c, y, events, from, later)
    decreases |events|
  {
    hide Next, Admitted;
    if events != [] {
      AdmittedLonger(c, Next(c, y, events[0]), events[1..], from, to, later);
    }
  }

  lemma {:induction false} ComesLast(c: Limits, y: System, events: seq<Event>, e: Event)
    requires Monotone(y.bucket.last, events + [e])
    ensures Monotone(y.bucket.last, events)
    ensures e.Arrive? ==> Run(c, y, events).bucket.last <= e.now
    decreases |events|
  {
    hide Next;
    if events == [] {
      assert events + [e] == [e];
    } else {
      assert (events + [e])[1..] == events[1..] + [e];
      SkipsTime(c, y, events + [e]);
      ComesLast(c, Next(c, y, events[0]), events[1..], e);
      MonotoneBegins(y.bucket.last, events, e);
    }
  }

  lemma {:induction false} MonotoneBegins(last: real, events: seq<Event>, e: Event)
    requires Monotone(last, events + [e])
    ensures Monotone(last, events)
    decreases |events|
  {
    if events != [] {
      assert (events + [e])[1..] == events[1..] + [e];
      MonotoneBegins(if events[0].Arrive? then events[0].now else last, events[1..], e);
    }
  }

  /** The bucket lacks no more than what was admitted since some time, less what has flowed in since. */
  ghost predicate FullAt(c: Limits, start: real, events: seq<Event>, from: real) {
    var b := Run(c, Opened(c, start), events).bucket;
    && start <= from <= b.last
    && b.tokens >= c.burst + Flow(c, from, b.last)
                   - AdmittedIn(c, Opened(c, start), events, from, b.last) as real
  }

  lemma FullStep(c: Limits, start: real, events: seq<Event>, e: Event, from: real) returns (since: real)
    requires Monotone(start, events + [e]) && FullAt(c, start, events, from)
    ensures FullAt(c, start, events + [e], since)
  {
    hide Flow, Run, AdmittedIn, Monotone, Admits;
    var y0 := Opened(c, start);
    var y := Run(c, y0, events);
    RunMore(c, y0, events, e);
    ComesLast(c, y0, events, e);
    var b := Next(c, y, e).bucket;
    since := if e.Arrive? && e.id !in y.inFlight && b == Arrived(c, y.bucket, e.now)
                && c.burst <= y.bucket.tokens + Flow(c, y.bucket.last, e.now) then e.now else from;
    AdmittedMore(c, y0, events, e, since, b.last);
    AdmittedLonger(c, y0, events, from, y.bucket.last, b.last);
    FlowAdds(c, from, y.bucket.last, b.last);
    FlowAdds(c, b.last, b.last, b.last);
  }

  lemma {:induction false} FullSince(c: Limits, start: real, events: seq<Event>) returns (since: real)
    requires Monotone(start, events)
    ensures FullAt(c, start, events, since)
    decreases |events|
  {
    hide Monotone;
    if events == [] {
      since := start;
      FlowAdds(c, start, start, start);
    } else {
      var n := |events| - 1;
      assert events == events[..n] + [events[n]];
      ComesLast(c, Opened(c, start), events[..n], events[n]);
      var from := FullSince(c, start, events[..n]);
      since := FullStep(c, start, events[..n], events[n], from);
    }
  }

  /** A window that starts at `from` has room for `n` admissions. */
  predicate Fits(c: Limits, n: nat, from: real, to: real) {
    n as real <= c.burst + (to - from) * c.refill
  }

  lemma FitsFlow(c: Limits, n: nat, from: real, to: real)
    ensures Fits(c, n, from, to) <==> n as real <= c.burst + Flow(c, from, to)
  {
  }

  /**
   A new request is admitted if and only if there is a free slot and every window that ends with it has room for
   one more. So the bound on windows and the bound on requests in flight are all that is ever enforced.
   */
  lemma AdmitsExactly(c: Limits, start: real, events: seq<Event>, e: Event)
    requires e.Arrive? && Monotone(start, events + [e]) && e.id !in Run(c, Opened(c, start), events).inFlight
    ensures Admitted(c, Run(c, Opened(c, start), events), e) <==>
            && |Run(c, Opened(c, start), events).inFlight| < c.concurrency
            && forall from | start <= from <= e.now ::
                 Fits(c, AdmittedIn(c, Opened(c, start), events, from, e.now) + 1, from, e.now)
  {
    var y0 := Opened(c, start);
    var y := Run(c, y0, events);
    hide Run, AdmittedIn, Monotone, Fits, Flow;
    ComesLast(c, y0, events, e);
    assert Sound(c, y0);
    RunSound(c, y0, events);
    if Admitted(c, y, e) {
      forall from | start <= from <= e.now ensures Fits(c, AdmittedIn(c, y0, events, from, e.now) + 1, from, e.now) {
        WindowBound(c, y0, events + [e], from, e.now);
        AdmittedMore(c, y0, events, e, from, e.now);
        FitsExact(c, AdmittedIn(c, y0, events + [e], from, e.now), from, e.now);
      }
    } else if |y.inFlight| < c.concurrency {
      var from := FullSince(c, start, events);
      Overfull(c, start, events, e, from);
    }
  }

  lemma FitsExact(c: Limits, n: nat, from: real, to: real)
    requires n as real <= c.burst + (to - from) * c.refill
    ensures Fits(c, n, from, to)
  {
  }

  /** If the bucket is empty, the window since it was full, or the one of this moment, is exhausted. */
  lemma Overfull(c: Limits, start: real, events: seq<Event>, e: Event, from: real)
    requires e.Arrive? && FullAt(c, start, events, from) && Run(c, Opened(c, start), events).bucket.last <= e.now
    requires Refilled(c, Run(c, Opened(c, start), events).bucket, e.now).tokens < 1.0
    ensures exists t | start <= t <= e.now ::
              !Fits(c, AdmittedIn(c, Opened(c, start), events, t, e.now) + 1, t, e.now)
  {
    hide Run, AdmittedIn, Flow, Fits;
    var y0 := Opened(c, start);
    var y := Run(c, y0, events);
    var t := if c.burst < 1.0 then e.now else from;
    FlowAdds(c, from, y.bucket.last, e.now);
    FlowAdds(c, e.now, e.now, e.now);
    AdmittedLonger(c, y0, events, from, y.bucket.last, e.now);
    FitsFlow(c, AdmittedIn(c, y0, events, t, e.now) + 1, t, e.now);
    assert !Fits(c, AdmittedIn(c, y0, events, t, e.now) + 1, t, e.now);
  }
}
