/** Graceful shutdown over whole runs (internal/session/session.go): what is left once the
    cancelled boots have drained. */
module Shutdown {
  import opened Protocol
  import R = Registry

  /** A Booting route always has its boot behind it. */
  ghost predicate BootingIsInFlight(w: World)
  {
    forall id :: id in w.routes && w.routes[id].state == R.Booting ==> id in w.boots
  }

  lemma BootingStep(cfg: Config, w: World, a: Action)
    requires BootingIsInFlight(w) && Enabled(cfg, w, a)
    ensures BootingIsInFlight(Apply(cfg, w, a))
  {
  }

  lemma {:induction false} BootingStaysInFlight(cfg: Config, w: World, actions: seq<Action>)
    requires BootingIsInFlight(w) && Runs(cfg, w, actions)
    ensures BootingIsInFlight(After(cfg, w, actions))
    decreases |actions|
  {
    if actions != [] {
      BootingStep(cfg, w, actions[0]);
      BootingStaysInFlight(cfg, Apply(cfg, w, actions[0]), actions[1..]);
    }
  }

  /** Once no boot is counted in flight, every route is Live or terminal, but for those of Plays
      between adding their route and counting their boot; and what containers are left, outside
      the history sets, are those of Live Sessions. */
  lemma DrainedLeavesOnlyLive(cfg: Config, actions: seq<Action>, id: string)
    requires Runs(cfg, START, actions) && Counted(After(cfg, START, actions)) == {}
    ensures var w := After(cfg, START, actions);
            && (id in w.routes && w.routes[id].state == R.Booting ==> At(w, id, Uncounted))
            && (id in w.stacks && id !in w.leaked + w.early ==> id in w.routes && w.routes[id].state == R.Live)
  {
    BootingStaysInFlight(cfg, START, actions);
    TerminalRoutesAreEmpty(cfg, actions, id);
    InvReached(cfg, actions);
    var w := After(cfg, START, actions);
    assert Fine(w, id);
    assert id in w.boots ==> id in Counted(w) || At(w, id, Uncounted);
  }

  /** From every world in which a new Session may be played: its route is Booting, and a drain
      does not wait for it. */
  lemma PlayIsUncounted(cfg: Config, w: World, id: string)
    requires w.admitting && id !in w.minted && id !in w.boots && Counted(w) == {}
    ensures Enabled(cfg, w, Play(id))
    ensures var v := Apply(cfg, w, Play(id));
            Counted(v) == {} && id in v.routes && v.routes[id].state == R.Booting
  {
  }

  function ShownFailed(routes: R.Routes): set<string>
  {
    set id | id in routes && routes[id].state == R.Failed
  }

  /** The boots that have read the context as not done and have yet to write the Failed page. */
  function AboutToFail(w: World): set<string> { set id | id in w.boots && w.boots[id] == Failing }

  /** After a cancellation the only Failed pages that can still appear are those of boots that
      had read the context just before it. */
  lemma {:induction false} NoFailureAfterCancel(cfg: Config, w: World, actions: seq<Action>)
    requires w.cancelled && Runs(cfg, w, actions)
    ensures After(cfg, w, actions).cancelled
    ensures ShownFailed(After(cfg, w, actions).routes) <= ShownFailed(w.routes) + AboutToFail(w)
    decreases |actions|
  {
    if actions != [] {
      NoFailureStep(cfg, w, actions[0]);
      NoFailureAfterCancel(cfg, Apply(cfg, w, actions[0]), actions[1..]);
    }
  }

  lemma NoFailureStep(cfg: Config, w: World, a: Action)
    requires w.cancelled && Enabled(cfg, w, a)
    ensures Apply(cfg, w, a).cancelled
    ensures ShownFailed(Apply(cfg, w, a).routes) + AboutToFail(Apply(cfg, w, a))
         <= ShownFailed(w.routes) + AboutToFail(w)
  {
    forall id | id in ShownFailed(Apply(cfg, w, a).routes) + AboutToFail(Apply(cfg, w, a))
      ensures id in ShownFailed(w.routes) + AboutToFail(w)
    {
      FailureWasComing(cfg, w, a, id);
    }
  }

  predicate Shown(w: World, id: string) { id in w.routes && w.routes[id].state == R.Failed }

  lemma FailureWasComing(cfg: Config, w: World, a: Action, id: string)
    requires w.cancelled && Enabled(cfg, w, a)
    requires Shown(Apply(cfg, w, a), id) || At(Apply(cfg, w, a), id, Failing)
    ensures Shown(w, id) || At(w, id, Failing)
  {
    hide R.HostOf;
  }

  /** Each of them can: the context check and the write are two steps. */
  lemma EachStillCan(cfg: Config, w: World, id: string)
    requires id in AboutToFail(w)
    ensures Enabled(cfg, w, Settle(id)) && id in ShownFailed(Apply(cfg, w, Settle(id)).routes)
  {
  }

  /** The race: a failed boot reads the context, the shutdown cancels it, and the Failed page
      is written all the same. */
  lemma RacingFailure(cfg: Config, w: World, id: string)
    requires At(w, id, Erred) && !w.cancelled
    ensures Runs(cfg, w, [Decide(id), Cancel, Settle(id)])
    ensures var v := After(cfg, w, [Decide(id), Cancel, Settle(id)]);
            v.cancelled && id in ShownFailed(v.routes) && id !in v.boots
  {
    var decided := Apply(cfg, w, Decide(id));
    var cancelled := Apply(cfg, decided, Cancel);
    RunThen(cfg, w, [], Decide(id));
    RunThen(cfg, w, [] + [Decide(id)], Cancel);
    RunThen(cfg, w, [] + [Decide(id)] + [Cancel], Settle(id));
    assert [] + [Decide(id)] + [Cancel] + [Settle(id)] == [Decide(id), Cancel, Settle(id)];
  }
}
