/** What an undisturbed boot leaves behind: the steps of Boot with nobody else's between
    them (internal/session/session.go:149-162, internal/runner/compose.go:117-204). */
module Undisturbed {
  import opened Text
  import opened Manifest
  import opened Protocol
  import opened Interleaving
  import opened Runner
  import opened Boot
  import R = Registry

  // Where each part of a boot leaves the world, step by step.

  function TornDown(cfg: Config, w: World, id: string, down: bool): (v: World)
    requires At(w, id, Tearing)
    ensures At(v, id, Erred)
  {
    if down then Apply(cfg, Apply(cfg, w, DownSucceeds(id)), DropRoute(id)) else Apply(cfg, w, DownFails(id))
  }

  function AttachEnds(set_: Settings, cfg: Config, w: World, id: string, f: Fate): (v: World)
    requires At(w, id, Upping)
    ensures !Attached(set_, f) ==> At(v, id, Erred)
  {
    var up := Apply(cfg, w, UpSucceeds(id));
    if Attached(set_, f) then Apply(cfg, Apply(cfg, up, AttachSucceeds(id)), Promote(id))
    else TornDown(cfg, Apply(cfg, up, AttachFails(id)), id, f.down)
  }

  function UpEnds(set_: Settings, cfg: Config, w: World, id: string, f: Fate): (v: World)
    requires At(w, id, Staged)
    ensures !f.up || !Attached(set_, f) ==> At(v, id, Erred)
  {
    var upping := Apply(cfg, w, UpBegins(id));
    if f.up then AttachEnds(set_, cfg, upping, id, f)
    else TornDown(cfg, Apply(cfg, upping, UpFails(id)), id, f.down)
  }

  function StagedFor(cfg: Config, w: World, id: string, services: seq<Service>): (v: World)
    requires At(w, id, Spawned)
    ensures At(v, id, Staged)
  {
    Apply(cfg, w, Stage(id, UiOf(services, id), ApisOf(services, id)))
  }

  ghost function ProvisionEnds(set_: Settings, cfg: Config, w: World, id: string, f: Fate): (v: World)
    requires At(w, id, Spawned)
    ensures !Succeeds(set_, id, f) ==> At(v, id, Erred)
  {
    if Startable(set_, id, f.inputs) then
      UpEnds(set_, cfg, StagedFor(cfg, w, id, f.inputs.project.value.manifest.services), id, f)
    else Apply(cfg, w, SourceFails(id))
  }

  function Settled(cfg: Config, w: World, id: string): World
    requires At(w, id, Erred)
  {
    Apply(cfg, Apply(cfg, w, Decide(id)), Settle(id))
  }

  // ---- Running the steps alone ----

  lemma Nothing(cfg: Config, w: World)
    ensures Runs(cfg, w, []) && After(cfg, w, []) == w
  {
  }

  lemma TeardownRuns(cfg: Config, w: World, id: string, down: bool)
    requires At(w, id, Tearing)
    ensures Runs(cfg, w, TeardownSteps(Boots(id), id, down))
    ensures After(cfg, w, TeardownSteps(Boots(id), id, down)) == TornDown(cfg, w, id, down)
  {
    var a := DownStep(Boots(id), id, down);
    var v := Apply(cfg, w, a);
    hide Runs, After;
    Nothing(cfg, TornDown(cfg, w, id, down));
    if down {
      RunCons(cfg, v, DropRoute(id), []);
      assert [DropRoute(id)] + [] == [DropRoute(id)];
      RunCons(cfg, w, a, [DropRoute(id)]);
    } else {
      RunCons(cfg, w, a, []);
    }
  }

  lemma AttachRuns(set_: Settings, cfg: Config, w: World, id: string, f: Fate)
    requires At(w, id, Upping)
    ensures Runs(cfg, w, AttachSteps(set_, id, f))
    ensures After(cfg, w, AttachSteps(set_, id, f)) == AttachEnds(set_, cfg, w, id, f)
  {
    hide Runs, After;
    if Attached(set_, f) {
      assert AttachSteps(set_, id, f) == [UpSucceeds(id), AttachSucceeds(id), Promote(id)];
      AttachedRuns(cfg, w, id);
    } else {
      var up := Apply(cfg, w, UpSucceeds(id));
      var failed := Apply(cfg, up, AttachFails(id));
      TeardownRuns(cfg, failed, id, f.down);
      RunCons(cfg, up, AttachFails(id), TeardownSteps(Boots(id), id, f.down));
      RunCons(cfg, w, UpSucceeds(id), [AttachFails(id)] + TeardownSteps(Boots(id), id, f.down));
    }
  }

  lemma AttachedRuns(cfg: Config, w: World, id: string)
    requires At(w, id, Upping)
    ensures Runs(cfg, w, [UpSucceeds(id), AttachSucceeds(id), Promote(id)])
    ensures var attached := Apply(cfg, Apply(cfg, w, UpSucceeds(id)), AttachSucceeds(id));
            After(cfg, w, [UpSucceeds(id), AttachSucceeds(id), Promote(id)]) == Apply(cfg, attached, Promote(id))
  {
    hide Runs, After, R.HostOf, R.Added, R.Promoted, R.FailedAs;
    var up := Apply(cfg, w, UpSucceeds(id));
    var attached := Apply(cfg, up, AttachSucceeds(id));
    Nothing(cfg, Apply(cfg, attached, Promote(id)));
    RunCons(cfg, attached, Promote(id), []);
    assert [Promote(id)] + [] == [Promote(id)];
    RunCons(cfg, up, AttachSucceeds(id), [Promote(id)]);
    assert [AttachSucceeds(id)] + [Promote(id)] == [AttachSucceeds(id), Promote(id)];
    RunCons(cfg, w, UpSucceeds(id), [AttachSucceeds(id), Promote(id)]);
    assert [UpSucceeds(id)] + [AttachSucceeds(id), Promote(id)] == [UpSucceeds(id), AttachSucceeds(id), Promote(id)];
  }

  lemma UpRuns(set_: Settings, cfg: Config, w: World, id: string, f: Fate)
    requires At(w, id, Staged)
    ensures Runs(cfg, w, UpSteps(set_, id, f)) && After(cfg, w, UpSteps(set_, id, f)) == UpEnds(set_, cfg, w, id, f)
  {
    var upping := Apply(cfg, w, UpBegins(id));
    hide Runs, After;
    if f.up {
      AttachRuns(set_, cfg, upping, id, f);
      RunCons(cfg, w, UpBegins(id), AttachSteps(set_, id, f));
    } else {
      var failed := Apply(cfg, upping, UpFails(id));
      TeardownRuns(cfg, failed, id, f.down);
      RunCons(cfg, upping, UpFails(id), TeardownSteps(Boots(id), id, f.down));
      RunCons(cfg, w, UpBegins(id), [UpFails(id)] + TeardownSteps(Boots(id), id, f.down));
    }
  }

  lemma ProvisionRuns(set_: Settings, cfg: Config, w: World, id: string, f: Fate)
    requires At(w, id, Spawned)
    ensures Runs(cfg, w, ProvisionSteps(set_, id, f))
    ensures After(cfg, w, ProvisionSteps(set_, id, f)) == ProvisionEnds(set_, cfg, w, id, f)
  {
    hide Runs, After, Startable;
    if Startable(set_, id, f.inputs) {
      assert f.inputs.project.Some? by { StartableHasProject(set_, id, f.inputs); }
      var services := f.inputs.project.value.manifest.services;
      UpRuns(set_, cfg, StagedFor(cfg, w, id, services), id, f);
      RunCons(cfg, w, Stage(id, UiOf(services, id), ApisOf(services, id)), UpSteps(set_, id, f));
    } else {
      Nothing(cfg, Apply(cfg, w, SourceFails(id)));
      RunCons(cfg, w, SourceFails(id), []);
      assert [SourceFails(id)] + [] == [SourceFails(id)];
    }
  }

  lemma StartableHasProject(set_: Settings, id: string, in_: Inputs)
    requires Startable(set_, id, in_)
    ensures in_.project.Some?
  {
  }

  /** A whole boot by itself is a run, so the theorems about all runs speak of it. */
  lemma BootStepsRun(set_: Settings, cfg: Config, w: World, id: string, f: Fate)
    requires At(w, id, Spawned)
    ensures Runs(cfg, w, BootSteps(set_, id, f))
    ensures var v := ProvisionEnds(set_, cfg, w, id, f);
            After(cfg, w, BootSteps(set_, id, f)) == if Succeeds(set_, id, f) then v else Settled(cfg, v, id)
  {
    hide Startable, Runs, After, ProvisionEnds, ProvisionSteps;
    ProvisionRuns(set_, cfg, w, id, f);
    var steps, v := ProvisionSteps(set_, id, f), ProvisionEnds(set_, cfg, w, id, f);
    if Succeeds(set_, id, f) {
      assert steps + [] == steps;
    } else {
      RunThen(cfg, w, steps, Decide(id));
      RunThen(cfg, w, steps + [Decide(id)], Settle(id));
      assert steps + [Decide(id)] + [Settle(id)] == steps + [Decide(id), Settle(id)];
    }
  }

  // ---- What is left ----

  lemma TornOutcome(cfg: Config, w: World, id: string, down: bool)
    requires At(w, id, Tearing)
    ensures var v := TornDown(cfg, w, id, down);
            && v.cancelled == w.cancelled && v.boots == w.boots[id := Erred]
            && v.stacks == (if down then w.stacks - {id} else w.stacks)
            && v.routes == (if down then w.routes - {id} else w.routes)
  {
  }

  /** What `up`, attaching and tearing down leave: ok is their success. */
  ghost predicate Left(w: World, v: World, id: string, ok: bool, down: bool)
  {
    && v.cancelled == w.cancelled
    && v.boots == (if ok then w.boots - {id} else w.boots[id := Erred])
    && v.stacks == (if ok || !down then w.stacks + {id} else w.stacks - {id})
    && v.routes == (if ok then R.Promoted(w.routes, id) else if down then w.routes - {id} else w.routes)
  }

  lemma FailureLeft(cfg: Config, w: World, failed: World, id: string, down: bool)
    requires At(failed, id, Tearing)
    requires failed.boots == w.boots[id := Tearing] && failed.stacks == w.stacks + {id}
    requires failed.routes == w.routes && failed.cancelled == w.cancelled
    ensures Left(w, TornDown(cfg, failed, id, down), id, false, down)
  {
    TornOutcome(cfg, failed, id, down);
    assert w.boots[id := Tearing][id := Erred] == w.boots[id := Erred];
  }

  lemma AttachFailure(cfg: Config, w: World, id: string) returns (failed: World)
    requires At(w, id, Upping)
    ensures failed == Apply(cfg, Apply(cfg, w, UpSucceeds(id)), AttachFails(id))
    ensures failed.boots == w.boots[id := Tearing] && failed.stacks == w.stacks + {id}
    ensures failed.routes == w.routes && failed.cancelled == w.cancelled
  {
    failed := Apply(cfg, Apply(cfg, w, UpSucceeds(id)), AttachFails(id));
  }

  lemma AttachOutcome(set_: Settings, cfg: Config, w: World, id: string, f: Fate)
    requires At(w, id, Upping)
    ensures Left(w, AttachEnds(set_, cfg, w, id, f), id, Attached(set_, f), f.down)
  {
    if !Attached(set_, f) {
      var failed := AttachFailure(cfg, w, id);
      FailureLeft(cfg, w, failed, id, f.down);
    }
  }

  lemma LeftFromUpping(w: World, upping: World, v: World, id: string, ok: bool, down: bool)
    requires upping.boots == w.boots[id := Upping] && upping.stacks == w.stacks + {id}
    requires upping.routes == w.routes && upping.cancelled == w.cancelled
    requires Left(upping, v, id, ok, down)
    ensures Left(w, v, id, ok, down)
  {
    assert w.boots[id := Upping][id := Erred] == w.boots[id := Erred];
  }

  lemma UpOutcome(set_: Settings, cfg: Config, w: World, id: string, f: Fate)
    requires At(w, id, Staged)
    ensures Left(w, UpEnds(set_, cfg, w, id, f), id, f.up && Attached(set_, f), f.down)
  {
    var upping := Apply(cfg, w, UpBegins(id));
    if f.up {
      AttachOutcome(set_, cfg, upping, id, f);
      LeftFromUpping(w, upping, AttachEnds(set_, cfg, upping, id, f), id, Attached(set_, f), f.down);
    } else {
      var failed := Apply(cfg, upping, UpFails(id));
      assert failed.boots == w.boots[id := Tearing];
      FailureLeft(cfg, w, failed, id, f.down);
    }
  }

  /** What Provision leaves of w: nothing but an erred boot when it never got to stage the
      route, otherwise the staged route Live, gone, or still there behind containers. */
  ghost predicate ProvisionLeft(
    cfg: Config, w: World, v: World, id: string, staged: bool, ok: bool, down: bool, ui: R.Backend,
    apis: seq<R.Backend>)
  {
    if !staged then v == w.(boots := w.boots[id := Erred])
    else Left(w.(routes := R.Added(cfg.domain, w.routes, id, ui, apis)), v, id, ok, down)
  }

  lemma LeftFromStaged(
    cfg: Config, w: World, staged: World, v: World, id: string, ok: bool, down: bool, ui: R.Backend,
    apis: seq<R.Backend>)
    requires At(w, id, Spawned) && staged == Apply(cfg, w, Stage(id, ui, apis))
    requires Left(staged, v, id, ok, down)
    ensures ProvisionLeft(cfg, w, v, id, true, ok, down, ui, apis)
  {
    assert w.boots[id := Staged][id := Erred] == w.boots[id := Erred];
    assert w.boots[id := Staged] - {id} == w.boots - {id};
  }

  lemma ProvisionOutcome(set_: Settings, cfg: Config, w: World, id: string, f: Fate, ui: R.Backend,
                         apis: seq<R.Backend>)
    requires At(w, id, Spawned)
    requires Startable(set_, id, f.inputs) ==> BackendsOf(f.inputs, id, ui, apis)
    ensures ProvisionLeft(cfg, w, ProvisionEnds(set_, cfg, w, id, f), id, Startable(set_, id, f.inputs),
                          Succeeds(set_, id, f), f.down, ui, apis)
  {
    if Startable(set_, id, f.inputs) {
      var staged := StagedFor(cfg, w, id, f.inputs.project.value.manifest.services);
      UpOutcome(set_, cfg, staged, id, f);
      LeftFromStaged(cfg, w, staged, UpEnds(set_, cfg, staged, id, f), id, f.up && Attached(set_, f), f.down, ui, apis);
    }
  }

  ghost predicate BackendsOf(in_: Inputs, id: string, ui: R.Backend, apis: seq<R.Backend>)
    requires in_.project.Some?
  {
    ui == UiOf(in_.project.value.manifest.services, id) && apis == ApisOf(in_.project.value.manifest.services, id)
  }

  /** What a whole boot leaves of w: a Live route over running containers when it succeeded;
      otherwise a Failed page, or no route when stopping; containers left behind exactly when
      the boot got as far as `compose up`, failed, and `compose down` failed too. */
  ghost predicate BootLeft(
    cfg: Config, w: World, v: World, id: string, staged: bool, ok: bool, down: bool, ui: R.Backend,
    apis: seq<R.Backend>)
  {
    && v.boots == w.boots - {id} && v.cancelled == w.cancelled
    && v.stacks == (if ok || (staged && !down) then w.stacks + {id} else w.stacks)
    && v.routes ==
         if ok then w.routes[id := R.Route(id, R.HostOf(cfg.domain, id), R.Live, ui, apis)]
         else if w.cancelled then w.routes - {id}
         else w.routes[id := R.Route(id, R.HostOf(cfg.domain, id), R.Failed, R.NO_BACKEND, [])]
  }

  lemma SettledLeft(
    cfg: Config, w: World, v: World, id: string, staged: bool, ok: bool, down: bool, ui: R.Backend,
    apis: seq<R.Backend>)
    requires At(w, id, Spawned) && R.WellFormed(cfg.domain, w.routes) && id in w.routes && id !in w.stacks
    requires ProvisionLeft(cfg, w, v, id, staged, ok, down, ui, apis) && (ok ==> staged)
    ensures ok ==> BootLeft(cfg, w, v, id, staged, ok, down, ui, apis)
    ensures !ok ==> At(v, id, Erred) && BootLeft(cfg, w, Settled(cfg, v, id), id, staged, ok, down, ui, apis)
  {
    assert w.boots[id := Erred] - {id} == w.boots - {id};
    if !ok {
      assert At(v, id, Erred);
      SettledIs(cfg, v, id);
      hide Settled, R.HostOf;
    }
  }

  lemma SettledIs(cfg: Config, v: World, id: string)
    requires At(v, id, Erred)
    ensures var x := Settled(cfg, v, id);
            && x.boots == v.boots - {id} && x.cancelled == v.cancelled && x.stacks == v.stacks
            && x.routes == if v.cancelled then v.routes - {id} else R.FailedAs(cfg.domain, v.routes, id, R.Failed)
  {
  }

  /** With nobody interfering, how an admitted boot ends; nothing else changes. */
  lemma BootOutcome(set_: Settings, cfg: Config, w: World, id: string, f: Fate, ui: R.Backend, apis: seq<R.Backend>)
    requires At(w, id, Spawned) && R.WellFormed(cfg.domain, w.routes) && id in w.routes && id !in w.stacks
    requires Startable(set_, id, f.inputs) ==> BackendsOf(f.inputs, id, ui, apis)
    ensures Runs(cfg, w, BootSteps(set_, id, f))
    ensures BootLeft(cfg, w, After(cfg, w, BootSteps(set_, id, f)), id,
              Startable(set_, id, f.inputs), Succeeds(set_, id, f), f.down, ui, apis)
  {
    BootStepsRun(set_, cfg, w, id, f);
    ProvisionOutcome(set_, cfg, w, id, f, ui, apis);
    SettledLeft(cfg, w, ProvisionEnds(set_, cfg, w, id, f), id, Startable(set_, id, f.inputs), Succeeds(set_, id, f),
                f.down, ui, apis);
  }
}
