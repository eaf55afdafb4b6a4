/** How tight the lifecycle's bounds are: runs that reach them (internal/session/session.go,
    internal/proxy/proxy.go). */
module Overshoot {
  import opened Text
  import opened Protocol
  import R = Registry

  ghost predicate Reached(cfg: Config, w: World)
  {
    exists actions :: Runs(cfg, START, actions) && After(cfg, START, actions) == w
  }

  lemma ReachedStart(cfg: Config)
    ensures Reached(cfg, START)
  {
    assert Runs(cfg, START, []) && After(cfg, START, []) == START;
  }

  lemma ReachedNext(cfg: Config, w: World, a: Action)
    requires Reached(cfg, w) && Enabled(cfg, w, a)
    ensures Reached(cfg, Apply(cfg, w, a))
  {
    var actions :| Runs(cfg, START, actions) && After(cfg, START, actions) == w;
    RunThen(cfg, START, actions, a);
  }

  /** The first n ids anybody is given. */
  function Ids(n: nat): set<string> { set i | 0 <= i < n :: Decimal(i) }

  lemma NextIdIsFresh(n: nat)
    ensures Decimal(n) !in Ids(n) && Ids(n + 1) == Ids(n) + {Decimal(n)}
  {
    forall i | 0 <= i < n ensures Decimal(i) != Decimal(n) {
      if Decimal(i) == Decimal(n) {
        DecimalInjective(i, n);
      }
    }
  }

  lemma {:induction false} IdsCount(n: nat)
    ensures |Ids(n)| == n
  {
    if n > 0 {
      IdsCount(n - 1);
      NextIdIsFresh(n - 1);
    }
  }

  lemma IdsGrow(k: nat, n: nat)
    requires k <= n
    ensures Ids(k) <= Ids(n)
  {
  }

  /** Nothing but the boots of these ids is going on, all at b. */
  ghost predicate Quiet(w: World, ids: set<string>, b: Boot)
  {
    && !w.admitting && !w.cancelled && w.reaper == Resting && w.stacks == {}
    && w.minted == ids && w.boots.Keys == ids && forall id :: id in w.boots ==> w.boots[id] == b
  }

  function Played(cfg: Config, w: World, id: string): World
  {
    w.(routes := R.Added(cfg.domain, w.routes, id, R.NO_BACKEND, []), boots := w.boots[id := Spawned],
       minted := w.minted + {id})
  }

  lemma PlayOnce(cfg: Config, w: World, id: string)
    requires Reached(cfg, w) && !w.admitting && id !in w.minted && (cfg.cap > 0 ==> |w.routes| < cfg.cap)
    ensures Reached(cfg, Played(cfg, w, id))
  {
    hide Reached, R.HostOf;
    ReachedNext(cfg, w, Admit);
    ReachedNext(cfg, Apply(cfg, w, Admit), Play(id));
    var added := Apply(cfg, Apply(cfg, w, Admit), Play(id));
    ReachedNext(cfg, added, Launch(id));
    assert added.boots[id := Spawned] == w.boots[id := Spawned];
  }

  // ---- In-flight reaps overshoot the cap ----

  /** The first k boots are in flight and their routes reaped. */
  ghost predicate Reaped(w: World, k: nat)
  {
    Quiet(w, Ids(k), Spawned) && w.routes == map[] && w.early == Ids(k)
  }

  /** One tick that reaps the only Session, whose boot is in flight. */
  lemma TickReaps(cfg: Config, w: World, id: string)
    requires Reached(cfg, w) && w.reaper == Resting && id in w.boots
    requires w.routes.Keys == {id} && w.routes[id].state == R.Booting
    ensures Reached(cfg, w.(routes := map[], stacks := w.stacks - {id}, early := w.early + {id}))
  {
    hide Reached;
    ReachedNext(cfg, w, TickBegins);
    var scanning := Apply(cfg, w, TickBegins);
    ReachedNext(cfg, scanning, Reap(id, false));
    var downing := Apply(cfg, scanning, Reap(id, false));
    var todo := scanning.reaper.todo - {id};
    assert downing == w.(reaper := Downing(todo, id, false), early := w.early + {id});
    ReapEnds(cfg, downing, id, todo);
    assert w.routes - {id} == map[];
  }

  lemma ReapEnds(cfg: Config, downing: World, id: string, todo: map<string, R.State>)
    requires Reached(cfg, downing) && downing.reaper == Downing(todo, id, false)
    ensures Reached(cfg, downing.(routes := downing.routes - {id}, stacks := downing.stacks - {id}, reaper := Resting))
  {
    hide Reached;
    ReachedNext(cfg, downing, ReapDownSucceeds);
    var removing := Apply(cfg, downing, ReapDownSucceeds);
    ReachedNext(cfg, removing, ReapRemove);
    var removed := Apply(cfg, removing, ReapRemove);
    ReachedNext(cfg, removed, TickEnds);
  }

  lemma ReapOnce(cfg: Config, w: World, k: nat) returns (v: World)
    requires cfg.cap > 0 && Reached(cfg, w) && Reaped(w, k)
    ensures Reached(cfg, v) && Reaped(v, k + 1)
  {
    hide Reached, Decimal, R.HostOf;
    NextIdIsFresh(k);
    var id := Decimal(k);
    PlayOnce(cfg, w, id);
    var played := Played(cfg, w, id);
    assert played.routes.Keys == {id};
    TickReaps(cfg, played, id);
    v := played.(routes := map[], stacks := played.stacks - {id}, early := played.early + {id});
    hide Ids;
  }

  /** Then more Sessions are admitted: all are the ids given out, early those reaped before. */
  ghost predicate Filled(w: World, early: set<string>, all: set<string>)
  {
    && Quiet(w, all, Spawned) && w.early == early && early <= all
    && w.routes.Keys == all - early && forall id :: id in w.routes ==> w.routes[id].state == R.Booting
  }

  lemma FillOnce(cfg: Config, w: World, early: set<string>, all: set<string>, id: string) returns (v: World)
    requires Reached(cfg, w) && Filled(w, early, all) && id !in all && |all - early| < cfg.cap
    ensures Reached(cfg, v) && Filled(v, early, all + {id})
  {
    hide Reached, Filled, Played;
    HasRoom(w, early, all);
    PlayOnce(cfg, w, id);
    v := Played(cfg, w, id);
    FilledNext(cfg, w, early, all, id);
  }

  lemma HasRoom(w: World, early: set<string>, all: set<string>)
    requires Filled(w, early, all)
    ensures !w.admitting && w.minted == all && |w.routes| == |all - early|
  {
    assert |w.routes| == |w.routes.Keys|;
  }

  lemma FilledNext(cfg: Config, w: World, early: set<string>, all: set<string>, id: string)
    requires Filled(w, early, all) && id !in all
    ensures Filled(Played(cfg, w, id), early, all + {id})
  {
    PlayedIs(cfg, w, id);
    hide Played;
    assert (all + {id}) - early == (all - early) + {id};
  }

  lemma PlayedIs(cfg: Config, w: World, id: string)
    ensures var v := Played(cfg, w, id);
            && v.boots.Keys == w.boots.Keys + {id}
            && (forall x :: x in v.boots ==> v.boots[x] == if x == id then Spawned else w.boots[x])
            && v.routes.Keys == w.routes.Keys + {id}
            && (forall x :: x in v.routes ==> v.routes[x].state == if x == id then R.Booting else w.routes[x].state)
            && v.minted == w.minted + {id} && v == w.(routes := v.routes, boots := v.boots, minted := v.minted)
  {
  }

  /** Then some of the reaped boots stage their routes again. */
  ghost predicate Returned(w: World, early: set<string>, all: set<string>, back: set<string>)
  {
    && w.early == early && back <= early <= all && (forall id :: id in early - back ==> At(w, id, Spawned))
    && w.routes.Keys == (all - early) + back && forall id :: id in w.routes ==> w.routes[id].state == R.Booting
  }

  lemma ReturnOnce(cfg: Config, w: World, early: set<string>, all: set<string>, back: set<string>, id: string)
    returns (v: World)
    requires Reached(cfg, w) && Returned(w, early, all, back) && id in early - back
    ensures Reached(cfg, v) && Returned(v, early, all, back + {id})
  {
    hide Reached, Apply, Enabled;
    assert At(w, id, Spawned);
    v := StageOnce(cfg, w, id);
    forall x | x in early - (back + {id}) ensures At(v, x, Spawned) {
      assert x in early - back && At(w, x, Spawned);
    }
  }

  lemma StageOnce(cfg: Config, w: World, id: string) returns (v: World)
    requires Reached(cfg, w) && At(w, id, Spawned)
    ensures Reached(cfg, v)
    ensures v.early == w.early && forall x :: x in w.boots && x != id ==> x in v.boots && v.boots[x] == w.boots[x]
    ensures v.routes.Keys == w.routes.Keys + {id}
    ensures forall x :: x in v.routes ==> v.routes[x].state == if x == id then R.Booting else w.routes[x].state
  {
    hide Reached;
    ReachedNext(cfg, w, Stage(id, R.NO_BACKEND, []));
    v := Apply(cfg, w, Stage(id, R.NO_BACKEND, []));
  }

  lemma {:induction false} ReapTimes(cfg: Config, k: nat) returns (w: World)
    requires cfg.cap > 0
    ensures Reached(cfg, w) && Reaped(w, k)
  {
    if k == 0 {
      w := START;
      ReachedStart(cfg);
    } else {
      w := ReapTimes(cfg, k - 1);
      w := ReapOnce(cfg, w, k - 1);
    }
  }

  lemma {:induction false} FillTimes(cfg: Config, k: nat, n: nat) returns (w: World)
    requires cfg.cap > 0 && n <= cfg.cap
    ensures Reached(cfg, w) && Filled(w, Ids(k), Ids(k + n))
  {
    if n == 0 {
      w := ReapTimes(cfg, k);
    } else {
      w := FillTimes(cfg, k, n - 1);
      NextIdIsFresh(k + n - 1);
      LaterIds(k, n - 1);
      w := FillOnce(cfg, w, Ids(k), Ids(k + n - 1), Decimal(k + n - 1));
    }
  }

  lemma LaterIds(k: nat, n: nat)
    ensures Ids(k) <= Ids(k + n) && |Ids(k + n) - Ids(k)| == n
  {
    IdsCount(k);
    IdsCount(k + n);
    IdsGrow(k, k + n);
    hide Ids;
    assert Ids(k + n) == (Ids(k + n) - Ids(k)) + Ids(k);
  }

  lemma {:induction false} ReturnTimes(cfg: Config, k: nat, j: nat) returns (w: World)
    requires cfg.cap > 0 && j <= k
    ensures Reached(cfg, w) && Returned(w, Ids(k), Ids(k + cfg.cap), Ids(j))
  {
    if j == 0 {
      w := FillTimes(cfg, k, cfg.cap);
    } else {
      w := ReturnTimes(cfg, k, j - 1);
      NextIdIsFresh(j - 1);
      assert Decimal(j - 1) in Ids(k);
      hide Returned, Ids, Decimal, Reached;
      w := ReturnOnce(cfg, w, Ids(k), Ids(k + cfg.cap), Ids(j - 1), Decimal(j - 1));
    }
  }

  lemma EarlyOf(w: World, early: set<string>, all: set<string>, back: set<string>)
    requires Returned(w, early, all, back)
    ensures w.early == early
  {
  }

  lemma AllActive(w: World, early: set<string>, all: set<string>)
    requires Returned(w, early, all, early)
    ensures Active(w.routes) == all
  {
  }

  /** The bound on active Sessions, with the early reaps counted in. */
  lemma WithinCapAndEarly(cfg: Config, actions: seq<Action>)
    requires cfg.cap > 0 && Runs(cfg, START, actions)
    ensures var w := After(cfg, START, actions); |Active(w.routes)| <= cfg.cap + |w.early|
  {
    SlotsAndStacksWithinCap(cfg, actions);
    var w := After(cfg, START, actions);
    SubsetIsNoLarger(Active(w.routes), (Active(w.routes) - w.early) + w.early);
  }

  /** It is tight: for every positive cap and every k there is a run with k boots reaped in
      flight that ends with cap + k active Sessions. */
  lemma EarlyReapsOvershoot(cfg: Config, k: nat) returns (actions: seq<Action>)
    requires cfg.cap > 0
    ensures Runs(cfg, START, actions)
    ensures var w := After(cfg, START, actions); |w.early| == k && |Active(w.routes)| == cfg.cap + k
  {
    hide Active, Ids, Returned;
    var w := ReturnTimes(cfg, k, k);
    EarlyOf(w, Ids(k), Ids(k + cfg.cap), Ids(k));
    IdsCount(k);
    IdsCount(k + cfg.cap);
    AllActive(w, Ids(k), Ids(k + cfg.cap));
    actions :| Runs(cfg, START, actions) && After(cfg, START, actions) == w;
  }

  // ---- The route table outgrows the cap ----

  /** Registry.Len is documented as the active Sessions; it is their number exactly when no
      route lingers. */
  lemma LenIsActiveIff(routes: R.Routes)
    ensures |routes| == |Active(routes)| <==> forall id :: id in routes ==> !routes[id].state.Terminal()
  {
    assert Active(routes) <= routes.Keys && |routes| == |routes.Keys|;
    if id :| id in routes && routes[id].state.Terminal() {
      SubsetIsNoLarger(Active(routes), routes.Keys - {id});
    } else {
      assert Active(routes) == routes.Keys;
    }
  }

  /** n boots failed one after the other, none has settled yet: the table is empty. */
  ghost predicate Unsettled(w: World, n: nat) { Quiet(w, Ids(n), Erred) && w.routes == map[] }

  /** One boot fails and drops its route, so its slot is free again. */
  lemma FailOnce(cfg: Config, w: World, n: nat) returns (v: World)
    requires cfg.cap > 0 && Reached(cfg, w) && Unsettled(w, n)
    ensures Reached(cfg, v) && Unsettled(v, n + 1)
  {
    hide Reached, Decimal, R.HostOf;
    NextIdIsFresh(n);
    var id := Decimal(n);
    PlayOnce(cfg, w, id);
    var played := Played(cfg, w, id);
    assert played.routes.Keys == {id};
    var tearing := UpFailsOnce(cfg, played, id);
    v := CleanUp(cfg, tearing, id);
    hide Ids, Apply, Enabled, Played;
    assert v.routes == map[] && v.stacks == {} && v.boots == w.boots[id := Erred];
  }

  lemma UpFailsOnce(cfg: Config, w: World, id: string) returns (v: World)
    requires Reached(cfg, w) && At(w, id, Spawned) && id in w.routes
    ensures Reached(cfg, v) && At(v, id, Tearing) && v.routes.Keys == w.routes.Keys && v.stacks == w.stacks + {id}
    ensures v.(boots := w.boots, routes := w.routes, stacks := w.stacks) == w && v.boots == w.boots[id := Tearing]
  {
    hide Reached, R.HostOf;
    ReachedNext(cfg, w, Stage(id, R.NO_BACKEND, []));
    var staged := Apply(cfg, w, Stage(id, R.NO_BACKEND, []));
    ReachedNext(cfg, staged, UpBegins(id));
    var upping := Apply(cfg, staged, UpBegins(id));
    ReachedNext(cfg, upping, UpFails(id));
    v := Apply(cfg, upping, UpFails(id));
    assert v.boots == w.boots[id := Tearing];
  }

  lemma CleanUp(cfg: Config, w: World, id: string) returns (v: World)
    requires Reached(cfg, w) && At(w, id, Tearing)
    ensures Reached(cfg, v)
    ensures v == w.(boots := w.boots[id := Erred], routes := w.routes - {id}, stacks := w.stacks - {id})
  {
    hide Reached;
    ReachedNext(cfg, w, DownSucceeds(id));
    var dropping := Apply(cfg, w, DownSucceeds(id));
    ReachedNext(cfg, dropping, DropRoute(id));
    v := Apply(cfg, dropping, DropRoute(id));
    assert dropping.boots[id := Erred] == w.boots[id := Erred];
  }

  lemma {:induction false} FailTimes(cfg: Config, n: nat) returns (w: World)
    requires cfg.cap > 0
    ensures Reached(cfg, w) && Unsettled(w, n)
  {
    if n == 0 {
      w := START;
      ReachedStart(cfg);
    } else {
      w := FailTimes(cfg, n - 1);
      w := FailOnce(cfg, w, n - 1);
    }
  }

  ghost predicate HalfSettled(w: World, all: set<string>, settled: set<string>)
  {
    && !w.cancelled && w.routes.Keys == settled && w.boots.Keys == all - settled
    && forall id :: id in w.boots ==> w.boots[id] == Erred
  }

  lemma SettleOnce(cfg: Config, w: World, all: set<string>, settled: set<string>, id: string) returns (v: World)
    requires Reached(cfg, w) && id in all - settled && HalfSettled(w, all, settled)
    ensures Reached(cfg, v) && HalfSettled(v, all, settled + {id})
  {
    hide Reached, Apply, Enabled;
    assert At(w, id, Erred);
    v := DecideAndSettle(cfg, w, id);
    assert all - (settled + {id}) == (all - settled) - {id};
  }

  lemma DecideAndSettle(cfg: Config, w: World, id: string) returns (v: World)
    requires Reached(cfg, w) && At(w, id, Erred) && !w.cancelled
    ensures Reached(cfg, v)
    ensures !v.cancelled && v.routes.Keys == w.routes.Keys + {id} && v.boots == w.boots - {id}
  {
    hide Reached;
    ReachedNext(cfg, w, Decide(id));
    ReachedNext(cfg, Apply(cfg, w, Decide(id)), Settle(id));
    v := Apply(cfg, Apply(cfg, w, Decide(id)), Settle(id));
    SettledIs(cfg, w, id);
  }

  lemma SettledIs(cfg: Config, w: World, id: string)
    requires At(w, id, Erred) && !w.cancelled
    ensures var v := Apply(cfg, Apply(cfg, w, Decide(id)), Settle(id));
            !v.cancelled && v.routes.Keys == w.routes.Keys + {id} && v.boots == w.boots - {id}
  {
    hide R.HostOf;
    assert w.boots[id := Failing] - {id} == w.boots - {id};
  }

  /** Settling k of the failed boots brings k Failed routes back. */
  lemma {:induction false} SettleTimes(cfg: Config, n: nat, k: nat) returns (w: World)
    requires cfg.cap > 0 && k <= n
    ensures Reached(cfg, w) && HalfSettled(w, Ids(n), Ids(k))
  {
    if k == 0 {
      w := FailTimes(cfg, n);
    } else {
      w := SettleTimes(cfg, n, k - 1);
      NextIdIsFresh(k - 1);
      IdsGrow(k, n);
      hide Ids, Decimal, HalfSettled, Reached;
      w := SettleOnce(cfg, w, Ids(n), Ids(k - 1), Decimal(k - 1));
    }
  }

  /** A failed boot removes its route before it recreates it as Failed, so under any positive
      cap the table can reach any size. */
  lemma RouteTableIsUnbounded(cfg: Config, n: nat) returns (actions: seq<Action>)
    requires cfg.cap > 0
    ensures Runs(cfg, START, actions) && |After(cfg, START, actions).routes| == n
  {
    var w := SettleTimes(cfg, n, n);
    actions :| Runs(cfg, START, actions) && After(cfg, START, actions) == w;
    IdsCount(n);
    assert |w.routes| == |w.routes.Keys|;
  }
}
