/** A tick of the reaper (internal/session/reaper.go) is a run of the Session lifecycle: what
    Reaper.Tick does to the routes and to docker, the lifecycle's reaper steps do. */
module Ticks {
  import opened Text
  import opened Protocol
  import opened Interleaving
  import R = Registry
  import S = Reaper

  predicate ReaperSteps(script: seq<Action>) { forall i :: 0 <= i < |script| ==> ReaperStep(script[i]) }

  /** What carrying out one verdict leaves of the stacks. */
  function StacksAfter(stacks: set<string>, id: string, v: S.Verdict, downOk: bool): set<string>
  {
    if v.TearsDown() && downOk then stacks - {id} else stacks
  }

  lemma Cons(cfg: Config, w: World, a: Action, rest: seq<Action>) returns (script: seq<Action>)
    requires ReaperStep(a) && Enabled(cfg, w, a) && Runs(cfg, Apply(cfg, w, a), rest) && ReaperSteps(rest)
    ensures script == [a] + rest && ReaperSteps(script)
    ensures Runs(cfg, w, script) && After(cfg, w, script) == After(cfg, Apply(cfg, w, a), rest)
  {
    script := [a] + rest;
    RunCons(cfg, w, a, rest);
  }

  /** A teardown that works: the containers, then the route, then for a crash the Crashed page. */
  lemma TeardownRuns(cfg: Config, w: World, id: string, crash: bool) returns (script: seq<Action>)
    requires Enabled(cfg, w, Reap(id, crash))
    ensures Runs(cfg, w, script) && ReaperSteps(script)
    ensures var v := After(cfg, w, script);
            && v.routes == (if crash then R.FailedAs(cfg.domain, w.routes - {id}, id, R.Crashed) else w.routes - {id})
            && v.stacks == w.stacks - {id} && v.reaper == Scanning(w.reaper.todo - {id}) && v.boots == w.boots
  {
    var downing := Apply(cfg, w, Reap(id, crash));
    var removing := Apply(cfg, downing, ReapDownSucceeds);
    var removed := Apply(cfg, removing, ReapRemove);
    script := [];
    if crash {
      script := Cons(cfg, removed, MarkCrashed, script);
    }
    script := Cons(cfg, removing, ReapRemove, script);
    script := Cons(cfg, downing, ReapDownSucceeds, script);
    script := Cons(cfg, w, Reap(id, crash), script);
  }

  lemma FailedTeardownRuns(cfg: Config, w: World, id: string, crash: bool) returns (script: seq<Action>)
    requires Enabled(cfg, w, Reap(id, crash))
    ensures Runs(cfg, w, script) && ReaperSteps(script)
    ensures var v := After(cfg, w, script);
            v.routes == w.routes && v.stacks == w.stacks && v.reaper == Scanning(w.reaper.todo - {id})
            && v.boots == w.boots
  {
    script := Cons(cfg, Apply(cfg, w, Reap(id, crash)), ReapDownFails, []);
    script := Cons(cfg, w, Reap(id, crash), script);
  }

  /** The verdicts ask only for steps that are enabled. */
  lemma VerdictFits(cfg: S.Config, state: R.State, c: Option<S.Clock>, in_: S.Reading)
    ensures var v := S.Judge(cfg, state, c, in_).verdict;
            && (v == S.Lingered ==> state.Terminal()) && (v.TearsDown() ==> !state.Terminal())
            && (v == S.Crash ==> state == R.Live)
  {
  }

  /** One Session's visit. */
  lemma VisitRuns(cfg: Config, w: World, id: string, j: S.Judgement, downOk: bool) returns (script: seq<Action>)
    requires w.reaper.Scanning? && id in w.reaper.todo && id in w.routes && R.WellFormed(cfg.domain, w.routes)
    requires j.verdict == S.Lingered ==> w.reaper.todo[id].Terminal()
    requires j.verdict.TearsDown() ==> !w.reaper.todo[id].Terminal()
    requires j.verdict == S.Crash ==> w.reaper.todo[id] == R.Live
    ensures Runs(cfg, w, script) && ReaperSteps(script)
    ensures var v := After(cfg, w, script);
            && v.routes == S.Put(w.routes, id, S.RouteAfter(w.routes[id], j, downOk))
            && v.stacks == StacksAfter(w.stacks, id, j.verdict, downOk) && v.boots == w.boots
            && v.reaper.Scanning?
            && forall x :: x in w.reaper.todo && x != id ==>
                 x in v.reaper.todo && v.reaper.todo[x] == w.reaper.todo[x]
  {
    script := [];
    if j.verdict == S.Lingered {
      script := Cons(cfg, w, Linger(id), []);
    } else if j.verdict.TearsDown() {
      if downOk {
        script := TeardownRuns(cfg, w, id, j.verdict == S.Crash);
        if j.verdict == S.Crash {
          CrashedPage(cfg.domain, w.routes, id);
        }
      } else {
        script := FailedTeardownRuns(cfg, w, id, j.verdict == S.Crash);
        assert w.routes[id := w.routes[id]] == w.routes;
      }
    } else {
      assert w.routes[id := w.routes[id]] == w.routes;
    }
  }

  lemma CrashedPage(domain: string, routes: R.Routes, id: string)
    requires id in routes && R.WellFormed(domain, routes)
    ensures R.FailedAs(domain, routes - {id}, id, R.Crashed)
         == routes[id := R.Route(routes[id].sessionId, routes[id].host, R.Crashed, R.NO_BACKEND, [])]
  {
    hide R.HostOf;
  }

  /** The reaper's snapshot still has the Sessions not visited yet, as they were. */
  ghost predicate Pending(w: World, routes: R.Routes, left: set<string>)
  {
    && w.reaper.Scanning?
    && forall id :: id in left ==> id in routes && id in w.reaper.todo && w.reaper.todo[id] == routes[id].state
  }

  lemma {:induction false} ScanRuns(
    cfg: Config, rcfg: S.Config, w: World, routes: R.Routes, clocks: map<string, S.Clock>, s: S.Scan, done: set<string>,
    left: set<string>)
    returns (script: seq<Action>)
    requires S.Apart(left, done, routes.Keys) && Pending(w, routes, left) && R.WellFormed(cfg.domain, routes)
    requires w.routes == S.PartialRoutes(rcfg, routes, clocks, s, done)
    ensures Runs(cfg, w, script) && ReaperSteps(script)
    ensures var v := After(cfg, w, script);
            && v.routes == S.PartialRoutes(rcfg, routes, clocks, s, routes.Keys) && v.reaper.Scanning?
            && v.boots == w.boots
            && forall x :: x in v.stacks <==> x in w.stacks && !(x in left && TornDown(rcfg, routes, clocks, s, x))
    decreases left
  {
    hide Runs, After, S.PartialRoutes, R.WellFormed;
    if left == {} {
      script := [];
      NoSteps(cfg, w);
      assert done == routes.Keys;
    } else {
      var id :| id in left;
      S.OneMoreDone(left, done, routes.Keys, id);
      S.PartialNext(rcfg, routes, clocks, s, done, id);
      S.PartialWellFormed(cfg.domain, rcfg, routes, clocks, s, done);
      VerdictFits(rcfg, routes[id].state, S.Tracked(clocks, id), s.For(id));
      var j := S.Verdicts(rcfg, routes, clocks, s, id);
      var first := VisitRuns(cfg, w, id, j, s.down(id));
      var v := After(cfg, w, first);
      var rest := ScanRuns(cfg, rcfg, v, routes, clocks, s, done + {id}, left - {id});
      RunAppend(cfg, w, first, rest);
      script := first + rest;
    }
  }

  lemma NoSteps(cfg: Config, w: World)
    ensures Runs(cfg, w, []) && After(cfg, w, []) == w
  {
  }

  ghost predicate TornDown(rcfg: S.Config, routes: R.Routes, clocks: map<string, S.Clock>, s: S.Scan, id: string)
  {
    id in routes && S.Verdicts(rcfg, routes, clocks, s, id).verdict.TearsDown() && s.down(id)
  }

  /** A tick is a run made of the reaper's steps only: it leaves the routes as Reaper.Tick
      does, and stops exactly the Stacks of the Sessions whose teardown worked. */
  lemma TickIsARun(cfg: Config, rcfg: S.Config, w: World, clocks: map<string, S.Clock>, s: S.Scan)
    returns (script: seq<Action>)
    requires w.reaper == Resting && R.WellFormed(cfg.domain, w.routes)
    ensures Runs(cfg, w, script) && ReaperSteps(script)
    ensures var v := After(cfg, w, script);
            && v.routes == S.RoutesAfterScan(rcfg, w.routes, clocks, s) && v.reaper == Resting && v.boots == w.boots
            && forall x :: x in v.stacks <==> x in w.stacks && !TornDown(rcfg, w.routes, clocks, s, x)
  {
    var begun := Apply(cfg, w, TickBegins);
    S.PartialStart(rcfg, w.routes, clocks, s);
    S.PartialEnd(rcfg, w.routes, clocks, s);
    script := ScanRuns(cfg, rcfg, begun, w.routes, clocks, s, {}, w.routes.Keys);
    RunThen(cfg, begun, script, TickEnds);
    script := Cons(cfg, w, TickBegins, script + [TickEnds]);
  }
}
