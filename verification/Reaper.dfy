/** The reaper's periodic scan (internal/session/reaper.go). Tick is the program's own loop,
    over objects it updates in place and a map whose order it does not control; Judge says
    what one scan decides about one Session, and Tick is proved to be Judge pointwise. */
module Reaper {
  import opened Text
  import R = Registry

  /** Durations and times are whole nanoseconds. checksHealth is false when no health
      checker is wired. */
  datatype Config = Config(idle: int, maxRuntime: int, crashGrace: int, failureLinger: int, checksHealth: bool)

  /** A clock's value; None is the zero time, "not observed in that condition". */
  datatype Clock = Clock(
    firstSeen: int, lastActive: int, lastCount: nat, seenCount: bool,
    unhealthySince: Option<int>, failedSince: Option<int>)

  function NewClock(now: int): Clock { Clock(now, now, 0, false, None, None) }

  datatype Answer = Healthy | Unhealthy | HealthError

  /** What one scan learns about one Session: the request count if the scrape succeeded, the
      health answer if it is asked for, and how a teardown would end if it is called. */
  datatype Reading = Reading(now: int, count: Option<nat>, health: Answer, downOk: bool)

  datatype Verdict = Keep | Lingered | MaxRuntime | Crash | Idle {
    /** The verdicts that call the Runner's Teardown. */
    predicate TearsDown() { this in {MaxRuntime, Crash, Idle} }
  }

  /** The verdict, and the clock as the scan leaves it behind. */
  datatype Judgement = Judgement(verdict: Verdict, clock: Clock)

  function JudgeTerminal(cfg: Config, c: Clock, now: int): Judgement
  {
    match c.failedSince
    case None => Judgement(Keep, c.(failedSince := Some(now)))
    case Some(since) => Judgement(if now - since >= cfg.failureLinger then Lingered else Keep, c)
  }

  /** The clock after the health poll, and whether the Session is found crashed. */
  function JudgeHealth(cfg: Config, c: Clock, in_: Reading): (bool, Clock)
  {
    if !cfg.checksHealth || in_.health == HealthError then (false, c)
    else if in_.health == Healthy then (false, c.(unhealthySince := None))
    else
      match c.unhealthySince
      case None => (false, c.(unhealthySince := Some(in_.now)))
      case Some(since) => (in_.now - since >= cfg.crashGrace, c)
  }

  function JudgeActivity(cfg: Config, c: Clock, in_: Reading): Judgement
  {
    match in_.count
    case None => Judgement(Keep, c)
    case Some(n) =>
      if !c.seenCount then Judgement(Keep, c.(lastCount := n, seenCount := true, lastActive := in_.now))
      else if n != c.lastCount then Judgement(Keep, c.(lastCount := n, lastActive := in_.now))
      else Judgement(if in_.now - c.lastActive >= cfg.idle then Idle else Keep, c)
  }

  function Judge(cfg: Config, state: R.State, before: Option<Clock>, in_: Reading): Judgement
  {
    var c := match before case Some(c) => c case None => NewClock(in_.now);
    if state.Terminal() then JudgeTerminal(cfg, c, in_.now)
    else if in_.now - c.firstSeen >= cfg.maxRuntime then Judgement(MaxRuntime, c)
    else if state != R.Live then Judgement(Keep, c)
    else
      var (crashed, c') := JudgeHealth(cfg, c, in_);
      if crashed then Judgement(Crash, c') else JudgeActivity(cfg, c', in_)
  }

  /** The Session's route after the verdict is carried out. */
  function RouteAfter(route: R.Route, j: Judgement, downOk: bool): Option<R.Route>
  {
    match j.verdict
    case Keep => Some(route)
    case Lingered => None
    case Crash =>
      if downOk then Some(R.Route(route.sessionId, route.host, R.Crashed, R.NO_BACKEND, [])) else Some(route)
    case _ => if downOk then None else Some(route)
  }

  /** The Session's clock after the verdict is carried out: a failed teardown, and a crash,
      keep it tracked. */
  function ClockAfter(j: Judgement, downOk: bool): Option<Clock>
  {
    match j.verdict
    case Lingered => None
    case MaxRuntime => if downOk then None else Some(j.clock)
    case Idle => if downOk then None else Some(j.clock)
    case _ => Some(j.clock)
  }

  /** A scan's inputs for all Sessions: counts is None when the scrape failed. */
  datatype Scan = Scan(now: int, counts: Option<map<string, nat>>, health: string -> Answer, down: string -> bool) {
    /** What it learns of one Session: there is no count exactly when the scrape failed, and a
        Session without a sample was not requested. */
    function For(id: string): (r: Reading)
      ensures r.now == this.now && r.health == this.health(id) && r.downOk == this.down(id)
      ensures r.count.None? <==> this.counts.None?
      ensures this.counts.Some? && id in this.counts.value ==> r.count == Some(this.counts.value[id])
      ensures this.counts.Some? && id !in this.counts.value ==> r.count == Some(0)
    {
      Reading(now,
        match counts case None => None case Some(m) => Some(if id in m then m[id] else 0),
        health(id), down(id))
    }
  }

  function Tracked(clocks: map<string, Clock>, id: string): Option<Clock>
  {
    if id in clocks then Some(clocks[id]) else None
  }

  function Verdicts(cfg: Config, routes: R.Routes, clocks: map<string, Clock>, s: Scan, id: string): Judgement
    requires id in routes
  {
    Judge(cfg, routes[id].state, Tracked(clocks, id), s.For(id))
  }

  class SessionClock {
    var firstSeen: int
    var lastActive: int
    var lastCount: nat
    var seenCount: bool
    var unhealthySince: Option<int>
    var failedSince: Option<int>

    constructor (now: int)
      ensures View() == NewClock(now)
    {
      firstSeen, lastActive, lastCount, seenCount := now, now, 0, false;
      unhealthySince, failedSince := None, None;
    }

    ghost function View(): Clock
      reads this
    {
      Clock(firstSeen, lastActive, lastCount, seenCount, unhealthySince, failedSince)
    }
  }

  class Reaper {
    const registry: R.Registry
    const cfg: Config
    var tracked: map<string, SessionClock>
    /** The teardown calls made so far. */
    ghost var calls: seq<string>

    constructor (registry: R.Registry, cfg: Config)
      ensures this.registry == registry && this.cfg == cfg && Valid() && Clocks() == map[] && calls == []
    {
      this.registry, this.cfg := registry, cfg;
      tracked, calls := map[], [];
    }

    ghost function Objects(): set<SessionClock>
      reads this
    {
      set id | id in tracked :: tracked[id]
    }

    /** Each tracked Session has a clock of its own. */
    ghost predicate Valid()
      reads this
    {
      forall a, b :: a in tracked && b in tracked && a != b ==> tracked[a] != tracked[b]
    }

    ghost function Clocks(): map<string, Clock>
      reads this, Objects()
    {
      map id | id in tracked :: tracked[id].View()
    }

    /** The Runner's Teardown as the reaper sees it: on success the route is gone. */
    method Teardown(id: string, ok: bool) returns (err: bool)
      modifies registry, `calls
      ensures err == !ok
      ensures calls == old(calls) + [id]
      ensures registry.routes == if ok then old(registry.routes) - {id} else old(registry.routes)
    {
      calls := calls + [id];
      if !ok {
        return true;
      }
      registry.Remove(id);
      return false;
    }

    method Reap(id: string, downOk: bool)
      requires Valid()
      modifies registry, `calls, `tracked
      ensures Valid()
      ensures calls == old(calls) + [id]
      ensures registry.routes == if downOk then old(registry.routes) - {id} else old(registry.routes)
      ensures tracked == if downOk then old(tracked) - {id} else old(tracked)
    {
      var err := Teardown(id, downOk);
      if err {
        return;
      }
      tracked := tracked - {id};
    }

    method CrashSession(id: string, downOk: bool)
      modifies registry, `calls
      ensures calls == old(calls) + [id]
      ensures registry.routes ==
                if downOk then R.FailedAs(registry.domain, old(registry.routes) - {id}, id, R.Crashed)
                else old(registry.routes)
    {
      var err := Teardown(id, downOk);
      if err {
        return;
      }
      registry.Fail(id, R.Crashed);
    }

    method DetectCrash(id: string, clock: SessionClock, in_: Reading) returns (handled: bool)
      modifies registry, `calls, clock`unhealthySince
      ensures (handled, clock.View()) == JudgeHealth(cfg, old(clock.View()), in_)
      ensures calls == old(calls) + if handled then [id] else []
      ensures registry.routes ==
                if handled && in_.downOk then R.FailedAs(registry.domain, old(registry.routes) - {id}, id, R.Crashed)
                else old(registry.routes)
    {
      if !cfg.checksHealth {
        return false;
      }
      if in_.health == HealthError {
        return false;
      }
      if in_.health == Healthy {
        clock.unhealthySince := None;
        return false;
      }
      if clock.unhealthySince.None? {
        clock.unhealthySince := Some(in_.now);
        return false;
      }
      if in_.now - clock.unhealthySince.value < cfg.crashGrace {
        return false;
      }
      CrashSession(id, in_.downOk);
      return true;
    }

    /** The clock of id, new if it was not tracked. */
    method ClockFor(id: string, now: int) returns (clock: SessionClock)
      requires Valid()
      modifies `tracked
      ensures Valid() && id in tracked && tracked[id] == clock
      ensures id in old(tracked) ==> tracked == old(tracked)
      ensures id !in old(tracked) ==>
                fresh(clock) && tracked == old(tracked)[id := clock] && clock.View() == NewClock(now)
    {
      if id in tracked {
        clock := tracked[id];
      } else {
        clock := new SessionClock(now);
        tracked := tracked[id := clock];
      }
    }

    /** The loop body past the clock lookup. */
    method ScanSession(id: string, route: R.Route, clock: SessionClock, in_: Reading)
      requires Valid() && id in tracked && tracked[id] == clock
      requires id in registry.routes && registry.routes[id] == route && R.WellFormed(registry.domain, registry.routes)
      modifies registry, `calls, `tracked, clock
      ensures Valid()
      ensures var v := Judge(cfg, route.state, Some(old(clock.View())), in_).verdict;
              && tracked == (if v == Lingered || (v in {MaxRuntime, Idle} && in_.downOk) then old(tracked) - {id}
                             else old(tracked))
              && calls == old(calls) + (if v in {MaxRuntime, Crash, Idle} then [id] else [])
              && registry.routes
                 == (if v == Lingered || (v in {MaxRuntime, Idle} && in_.downOk) then old(registry.routes) - {id}
                     else if v == Crash && in_.downOk then
                       old(registry.routes)[id := R.Route(id, route.host, R.Crashed, R.Backend("", ""), [])]
                     else old(registry.routes))
      ensures var j := Judge(cfg, route.state, Some(old(clock.View())), in_);
              && clock.View() == j.clock
              && tracked == (if ClockAfter(j, in_.downOk).None? then old(tracked) - {id} else old(tracked))
              && calls == old(calls) + (if j.verdict.TearsDown() then [id] else [])
              && registry.routes == Put(old(registry.routes), id, RouteAfter(route, j, in_.downOk))
    {
      var now := in_.now;
      if route.state.Terminal() {
        if clock.failedSince.None? {
          clock.failedSince := Some(now);
        } else if now - clock.failedSince.value >= cfg.failureLinger {
          registry.Remove(id);
          tracked := tracked - {id};
        }
        return;
      }
      if now - clock.firstSeen >= cfg.maxRuntime {
        Reap(id, in_.downOk);
        return;
      }
      if route.state != R.Live {
        return;
      }
      var handled := DetectCrash(id, clock, in_);
      if handled {
        return;
      }
      if in_.count.None? {
        return;
      }
      var count := in_.count.value;
      if !clock.seenCount {
        clock.lastCount := count;
        clock.seenCount := true;
        clock.lastActive := now;
        return;
      }
      if count != clock.lastCount {
        clock.lastCount := count;
        clock.lastActive := now;
        return;
      }
      if now - clock.lastActive >= cfg.idle {
        Reap(id, in_.downOk);
      }
    }

    /** The whole loop body for one Session: Judge, carried out. */
    method ScanOne(id: string, route: R.Route, in_: Reading)
      requires Valid()
      requires id in registry.routes && registry.routes[id] == route && R.WellFormed(registry.domain, registry.routes)
      modifies registry, `calls, `tracked, Objects()
      ensures Valid() && fresh(Objects() - old(Objects()))
      ensures var j := Judge(cfg, route.state, Tracked(old(Clocks()), id), in_);
              && Clocks() == Put(old(Clocks()), id, ClockAfter(j, in_.downOk))
              && registry.routes == Put(old(registry.routes), id, RouteAfter(route, j, in_.downOk))
              && calls == old(calls) + (if j.verdict.TearsDown() then [id] else [])
    {
      ghost var tracked0, clocks0 := tracked, Clocks();
      JudgeUntracked(cfg, route.state, in_);
      hide Judge, R.WellFormed, RouteAfter;
      var clock := ClockFor(id, in_.now);
      ghost var tracked1 := tracked;
      assert tracked1.Keys == tracked0.Keys + {id};
      ScanSession(id, route, clock, in_);
      assert tracked.Keys + {id} == tracked1.Keys;
      forall other | other in tracked && other != id
        ensures other in tracked0 && tracked[other] == tracked0[other] && tracked[other].View() == clocks0[other]
      {
        assert tracked[other] == tracked1[other] == tracked0[other] && tracked1[other] != clock;
      }
      ghost var j := Judge(cfg, route.state, Tracked(clocks0, id), in_);
      PutIs(clocks0, Clocks(), id, ClockAfter(j, in_.downOk));
    }

    /** One scan. Whatever order the present Sessions are visited in, the routes, the clocks
        and the teardown calls end up as Judge says of each Session by itself. */
    method Tick(s: Scan)
      requires Valid() && R.WellFormed(registry.domain, registry.routes)
      modifies this, registry, Objects()
      ensures Valid() && R.WellFormed(registry.domain, registry.routes)
      ensures registry.routes == RoutesAfterScan(cfg, old(registry.routes), old(Clocks()), s)
      ensures Clocks() == ClocksAfterScan(cfg, old(registry.routes), old(Clocks()), s)
      ensures exists made :: calls == old(calls) + made
                && CallsMade(cfg, old(registry.routes), old(Clocks()), s, old(registry.routes).Keys, made)
    {
      ghost var routes0, clocks0 := registry.routes, Clocks();
      var present := CopyOfRoutes();
      Prune(present);
      PartialStart(cfg, routes0, clocks0, s);
      ghost var made := ScanAll(present, s, clocks0);
      PartialEnd(cfg, routes0, clocks0, s);
    }

    method ScanAll(present: R.Routes, s: Scan, ghost clocks0: map<string, Clock>) returns (ghost made: seq<string>)
      requires Valid() && R.WellFormed(registry.domain, registry.routes)
      requires present == registry.routes && Progress(cfg, present, clocks0, s, {}, registry.routes, Clocks())
      modifies this, registry, Objects()
      ensures Valid() && R.WellFormed(registry.domain, registry.routes)
      ensures Progress(cfg, present, clocks0, s, present.Keys, registry.routes, Clocks())
      ensures calls == old(calls) + made && CallsMade(cfg, present, clocks0, s, present.Keys, made)
    {
      made := [];
      var left := present.Keys;
      ghost var done: set<string> := {};
      assert CallsMade(cfg, present, clocks0, s, done, made);
      hide Progress, CallsMade, R.WellFormed;
      while left != {}
        invariant Apart(left, done, present.Keys)
        invariant Valid() && fresh(Objects() - old(Objects()))
        invariant R.WellFormed(registry.domain, registry.routes)
        invariant Progress(cfg, present, clocks0, s, done, registry.routes, Clocks())
        invariant calls == old(calls) + made
        invariant CallsMade(cfg, present, clocks0, s, done, made)
        decreases left
      {
        var id :| id in left;
        OneMoreDone(left, done, present.Keys, id);
        ghost var added := Visit(id, present[id], s, present, clocks0, done, made);
        Associates(old(calls), made, added);
        made := made + added;
        left, done := left - {id}, done + {id};
      }
    }

    /** The loop body, with the bookkeeping of the proof. */
    method Visit(id: string, route: R.Route, s: Scan, ghost routes0: R.Routes, ghost clocks0: map<string, Clock>,
                 ghost done: set<string>, ghost made: seq<string>)
      returns (ghost added: seq<string>)
      requires Valid() && R.WellFormed(registry.domain, registry.routes) && R.WellFormed(registry.domain, routes0)
      requires id in routes0 && route == routes0[id] && id !in done
      requires Progress(cfg, routes0, clocks0, s, done, registry.routes, Clocks())
      requires CallsMade(cfg, routes0, clocks0, s, done, made)
      modifies registry, `calls, `tracked, Objects()
      ensures Valid() && fresh(Objects() - old(Objects()))
      ensures R.WellFormed(registry.domain, registry.routes)
      ensures Progress(cfg, routes0, clocks0, s, done + {id}, registry.routes, Clocks())
      ensures CallsMade(cfg, routes0, clocks0, s, done + {id}, made + added) && calls == old(calls) + added
    {
      PartialNext(cfg, routes0, clocks0, s, done, id);
      ScanOne(id, route, s.For(id));
      PartialWellFormed(registry.domain, cfg, routes0, clocks0, s, done + {id});
      added := CallsOf(cfg, routes0, clocks0, s, id);
      CallsNext(cfg, routes0, clocks0, s, done, id, made);
    }

    method CopyOfRoutes() returns (present: R.Routes)
      requires R.WellFormed(registry.domain, registry.routes)
      ensures present == registry.routes
    {
      var list := registry.Snapshot();
      present := map[];
      for i := 0 to |list|
        invariant forall id :: id in present <==> exists k :: 0 <= k < i && list[k].sessionId == id
        invariant forall id :: id in present ==> id in registry.routes && present[id] == registry.routes[id]
      {
        assert list[i] in list;
        present := present[list[i].sessionId := list[i]];
      }
      forall id | id in registry.routes ensures id in present {
        assert registry.routes[id] in list;
      }
    }

    /** Forgets the clocks of Sessions that are gone. */
    method Prune(present: R.Routes)
      requires Valid()
      modifies `tracked
      ensures Valid() && Objects() <= old(Objects())
      ensures Clocks() == map id | id in old(Clocks()) && id in present :: old(Clocks())[id]
    {
      var left := tracked.Keys;
      while left != {}
        invariant left <= old(tracked).Keys
        invariant tracked == map id | id in old(tracked) && (id in left || id in present) :: old(tracked)[id]
        decreases left
      {
        var id :| id in left;
        if id !in present {
          tracked := tracked - {id};
        }
        left := left - {id};
      }
    }
  }

  ghost predicate Apart(left: set<string>, done: set<string>, all: set<string>)
  {
    left + done == all && left !! done
  }

  lemma OneMoreDone(left: set<string>, done: set<string>, all: set<string>, id: string)
    requires Apart(left, done, all) && id in left
    ensures id in all && id !in done && Apart(left - {id}, done + {id}, all)
  {
  }

  function Put<T>(m: map<string, T>, id: string, v: Option<T>): map<string, T>
  {
    match v case None => m - {id} case Some(x) => m[id := x]
  }

  lemma PutIs<T>(before: map<string, T>, after: map<string, T>, id: string, v: Option<T>)
    requires forall other :: other != id ==> (other in before <==> other in after)
    requires forall other :: other != id && other in after ==> after[other] == before[other]
    requires id in after <==> v.Some?
    requires v.Some? ==> after[id] == v.value
    ensures after == Put(before, id, v)
  {
  }

  ghost predicate NoneTwice(ids: seq<string>)
  {
    forall i, j :: 0 <= i < j < |ids| ==> ids[i] != ids[j]
  }

  lemma JudgeUntracked(cfg: Config, state: R.State, in_: Reading)
    ensures Judge(cfg, state, None, in_) == Judge(cfg, state, Some(NewClock(in_.now)), in_)
  {
  }

  // ---- A scan as a function of the state before it, Session by Session ----

  function RouteOf(cfg: Config, routes: R.Routes, clocks: map<string, Clock>, s: Scan, id: string): Option<R.Route>
    requires id in routes
  {
    RouteAfter(routes[id], Verdicts(cfg, routes, clocks, s, id), s.down(id))
  }

  function ClockOf(cfg: Config, routes: R.Routes, clocks: map<string, Clock>, s: Scan, id: string): Option<Clock>
    requires id in routes
  {
    ClockAfter(Verdicts(cfg, routes, clocks, s, id), s.down(id))
  }

  function RoutesAfterScan(cfg: Config, routes: R.Routes, clocks: map<string, Clock>, s: Scan): R.Routes
  {
    map id | id in routes && RouteOf(cfg, routes, clocks, s, id).Some? :: RouteOf(cfg, routes, clocks, s, id).value
  }

  function ClocksAfterScan(cfg: Config, routes: R.Routes, clocks: map<string, Clock>, s: Scan): map<string, Clock>
  {
    map id | id in routes && ClockOf(cfg, routes, clocks, s, id).Some? :: ClockOf(cfg, routes, clocks, s, id).value
  }

  // Half-way through a scan: done are the Sessions visited.

  function PartialRoutes(cfg: Config, routes: R.Routes, clocks: map<string, Clock>, s: Scan,
                         done: set<string>): R.Routes
  {
    map id | id in routes && (id in done ==> RouteOf(cfg, routes, clocks, s, id).Some?) ::
      if id in done then RouteOf(cfg, routes, clocks, s, id).value else routes[id]
  }

  function PartialClocks(cfg: Config, routes: R.Routes, clocks: map<string, Clock>, s: Scan,
                         done: set<string>): map<string, Clock>
  {
    map id | id in routes && (if id in done then ClockOf(cfg, routes, clocks, s, id).Some? else id in clocks) ::
      if id in done then ClockOf(cfg, routes, clocks, s, id).value else clocks[id]
  }

  ghost predicate Progress(
    cfg: Config, routes: R.Routes, clocks: map<string, Clock>, s: Scan, done: set<string>,
    routesNow: R.Routes, clocksNow: map<string, Clock>)
  {
    routesNow == PartialRoutes(cfg, routes, clocks, s, done) && clocksNow == PartialClocks(cfg, routes, clocks, s, done)
  }

  /** The teardown calls made for the Sessions visited: one for each verdict that tears down. */
  ghost predicate CallsMade(
    cfg: Config, routes: R.Routes, clocks: map<string, Clock>, s: Scan, done: set<string>, made: seq<string>)
  {
    && NoneTwice(made)
    && forall id :: id in made <==>
      id in done && id in routes && Verdicts(cfg, routes, clocks, s, id).verdict.TearsDown()
  }

  function CallsOf(cfg: Config, routes: R.Routes, clocks: map<string, Clock>, s: Scan, id: string): seq<string>
    requires id in routes
  {
    if Verdicts(cfg, routes, clocks, s, id).verdict.TearsDown() then [id] else []
  }

  lemma CallsNext(
    cfg: Config, routes: R.Routes, clocks: map<string, Clock>, s: Scan, done: set<string>, id: string,
    made: seq<string>)
    requires id in routes && id !in done && CallsMade(cfg, routes, clocks, s, done, made)
    ensures CallsMade(cfg, routes, clocks, s, done + {id}, made + CallsOf(cfg, routes, clocks, s, id))
  {
  }

  lemma PartialStart(cfg: Config, routes: R.Routes, clocks: map<string, Clock>, s: Scan)
    ensures PartialRoutes(cfg, routes, clocks, s, {}) == routes
    ensures PartialClocks(cfg, routes, clocks, s, {}) == map id | id in clocks && id in routes :: clocks[id]
  {
  }

  lemma PartialEnd(cfg: Config, routes: R.Routes, clocks: map<string, Clock>, s: Scan)
    ensures PartialRoutes(cfg, routes, clocks, s, routes.Keys) == RoutesAfterScan(cfg, routes, clocks, s)
    ensures PartialClocks(cfg, routes, clocks, s, routes.Keys) == ClocksAfterScan(cfg, routes, clocks, s)
  {
  }

  /** Visiting one more Session puts its outcome in place; it is judged on what it was before
      the scan, since visiting the others did not touch it. */
  lemma PartialNext(cfg: Config, routes: R.Routes, clocks: map<string, Clock>, s: Scan, done: set<string>, id: string)
    requires id in routes && id !in done
    ensures var r, c := PartialRoutes(cfg, routes, clocks, s, done), PartialClocks(cfg, routes, clocks, s, done);
            && id in r && r[id] == routes[id] && Tracked(c, id) == Tracked(clocks, id)
            && PartialRoutes(cfg, routes, clocks, s, done + {id}) == Put(r, id, RouteOf(cfg, routes, clocks, s, id))
            && PartialClocks(cfg, routes, clocks, s, done + {id}) == Put(c, id, ClockOf(cfg, routes, clocks, s, id))
  {
    hide RouteOf, ClockOf;
  }

  lemma PartialWellFormed(domain: string, cfg: Config, routes: R.Routes, clocks: map<string, Clock>, s: Scan,
                          done: set<string>)
    requires R.WellFormed(domain, routes)
    ensures R.WellFormed(domain, PartialRoutes(cfg, routes, clocks, s, done))
  {
  }
}
