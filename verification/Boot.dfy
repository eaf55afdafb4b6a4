/** A boot as the program writes it (internal/runner/compose.go, internal/session/session.go):
    Provision and Teardown, and the manager's Play, boot and Shutdown. Between any two of its
    steps the other goroutines do what they like; what each method does to the registry and to
    docker is what its own steps of the Session lifecycle, so interleaved, do to the world. */
module Boot {
  import opened Text
  import opened Manifest
  import opened Stack
  import opened Scrub
  import opened Protocol
  import opened Interleaving
  import opened Runner
  import R = Registry

  // ---- Docker, as far as the lifecycle sees it ----

  /** The compose projects that may have containers. */
  class Docker {
    var stacks: set<string>

    constructor ()
      ensures stacks == {}
    {
      stacks := {};
    }

    /** `up` may create containers from its start to its end, whatever its outcome. */
    method BeginUp(project: string)
      modifies this
      ensures stacks == old(stacks) + {project}
    {
      stacks := stacks + {project};
    }

    method EndUp(project: string, ok: bool) returns (succeeded: bool)
      modifies this
      ensures stacks == (if ok then old(stacks) + {project} else old(stacks)) && succeeded == ok
    {
      if ok { stacks := stacks + {project}; }
      succeeded := ok;
    }

    method Down(project: string, ok: bool) returns (succeeded: bool)
      modifies this
      ensures stacks == (if ok then old(stacks) - {project} else old(stacks)) && succeeded == ok
    {
      if ok { stacks := stacks - {project}; }
      succeeded := ok;
    }
  }

  /** What the world outside decides about one boot; the outputs are what docker prints when
      `up` or attaching the proxy fails. */
  datatype Fate = Fate(inputs: Inputs, up: bool, output: string, attach: bool, attachOutput: string, down: bool)

  datatype Provisioned = Started(url: string) | NotStarted(output: string)

  predicate Attached(set_: Settings, f: Fate) { set_.traefik == "" || f.attach }

  ghost predicate Succeeds(set_: Settings, id: string, f: Fate)
  {
    Startable(set_, id, f.inputs) && f.up && Attached(set_, f)
  }

  // ---- A boot's own steps ----

  function DownStep(c: Caller, id: string, ok: bool): Action
  {
    if c.Boots? then if ok then DownSucceeds(id) else DownFails(id)
    else if ok then ReapDownSucceeds else ReapDownFails
  }

  function RemoveStep(c: Caller, id: string): Action { if c.Boots? then DropRoute(id) else ReapRemove }

  function TeardownSteps(c: Caller, id: string, ok: bool): seq<Action>
  {
    [DownStep(c, id, ok)] + if ok then [RemoveStep(c, id)] else []
  }

  function AttachSteps(set_: Settings, id: string, f: Fate): seq<Action>
  {
    [UpSucceeds(id)]
      + if Attached(set_, f) then [AttachSucceeds(id), Promote(id)]
        else [AttachFails(id)] + TeardownSteps(Boots(id), id, f.down)
  }

  function UpSteps(set_: Settings, id: string, f: Fate): seq<Action>
  {
    [UpBegins(id)]
      + if f.up then AttachSteps(set_, id, f) else [UpFails(id)] + TeardownSteps(Boots(id), id, f.down)
  }

  ghost function ProvisionSteps(set_: Settings, id: string, f: Fate): seq<Action>
  {
    if Startable(set_, id, f.inputs) then
      var services := f.inputs.project.value.manifest.services;
      [Stage(id, UiOf(services, id), ApisOf(services, id))] + UpSteps(set_, id, f)
    else [SourceFails(id)]
  }

  /** A failed boot looks at the context and then settles its route. */
  ghost function BootSteps(set_: Settings, id: string, f: Fate): seq<Action>
  {
    ProvisionSteps(set_, id, f) + if Succeeds(set_, id, f) then [] else [Decide(id), Settle(id)]
  }

  lemma OnlyThisProject(id: string)
    ensures forall other :: ProjectName(other) == ProjectName(id) ==> other == id
  {
    forall other | ProjectName(other) == ProjectName(id) ensures other == id {
      assert ProjectName(other)[2..] == other && ProjectName(id)[2..] == id;
    }
  }

  ghost predicate Redacted(r: Provisioned, in_: Inputs)
  {
    r.NotStarted? && in_.password.Some? && in_.project.Some? && in_.project.value.manifest.db.Some? ==>
      HoldsNo(r.output, in_.password.value)
  }

  /** The caller is about to call docker for a teardown. */
  predicate AboutToDown(w: World, c: Caller, id: string)
  {
    match c
    case Boots(b) => b == id && id in w.minted && At(w, id, Tearing)
    case Reaps => w.reaper.Downing? && w.reaper.id == id
    case _ => false
  }

  class Compose {
    const registry: R.Registry
    const docker: Docker
    const settings: Settings

    constructor (registry: R.Registry, docker: Docker, settings: Settings)
      ensures this.registry == registry && this.docker == docker && this.settings == settings
    {
      this.registry, this.docker, this.settings := registry, docker, settings;
    }

    /** The registry and docker are as the world has them. */
    ghost predicate Shows(cfg: Config, w: World)
      reads registry, docker
    {
      && registry.domain == cfg.domain && registry.routes == w.routes
      && forall id :: ProjectName(id) in docker.stacks <==> id in w.stacks
    }

    /** The other goroutines act. */
    method Interfere(cfg: Config, c: Caller, others: seq<Action>, w: World) returns (v: World)
      requires Shows(cfg, w)
      modifies registry, docker
      ensures v == Meanwhile(cfg, w, c, others) && Shows(cfg, v)
    {
      v := Meanwhile(cfg, w, c, others);
      registry.routes := v.routes;
      docker.stacks := set id | id in v.stacks :: ProjectName(id);
      forall id ensures ProjectName(id) in docker.stacks <==> id in v.stacks { OnlyThisProject(id); }
    }

    /** For a boot or for the reaper: the containers go before the route, and when they do not,
        the route stays. */
    method Teardown(cfg: Config, c: Caller, id: string, down: bool, others: seq<Action>, w: World)
      returns (ok: bool, v: World, ghost script: seq<Action>)
      requires Shows(cfg, w) && AboutToDown(w, c, id)
      modifies registry, docker
      ensures ok == (down && ValidSessionId(id)) && Shows(cfg, v)
      ensures Path(cfg, w, script, v, c, TeardownSteps(c, id, ok))
      ensures c.Boots? ==> id in v.minted && At(v, id, Erred)
    {
      hide Path;
      ok, v, script := TakeDown(cfg, c, id, down, w);
      if !ok {
        assert TeardownSteps(c, id, ok) == [DownStep(c, id, ok)];
        return;
      }
      ghost var downed := v;
      ghost var rest;
      v, rest := DropAfter(cfg, c, id, others, v);
      PathJoin(cfg, w, script, downed, rest, v, c, [DownStep(c, id, ok)], [RemoveStep(c, id)],
               TeardownSteps(c, id, ok));
      script := script + rest;
    }

    /** The containers. */
    method TakeDown(cfg: Config, c: Caller, id: string, down: bool, w: World)
      returns (ok: bool, v: World, ghost script: seq<Action>)
      requires Shows(cfg, w) && AboutToDown(w, c, id)
      modifies docker
      ensures ok == (down && ValidSessionId(id)) && Shows(cfg, v)
      ensures Path(cfg, w, script, v, c, [DownStep(c, id, ok)])
      ensures c.Boots? ==> id in v.minted && At(v, id, if ok then Dropping else Erred)
      ensures c.Reaps? && ok ==> v.reaper.Removing? && v.reaper.id == id
    {
      hide Path;
      ok := false;
      if ValidSessionId(id) {
        OnlyThisProject(id);
        ok := docker.Down(ProjectName(id), down);
      }
      var step := DownStep(c, id, ok);
      PathStart(cfg, w, c);
      PathAct(cfg, w, [], w, c, [], step, [step]);
      script := [] + [step];
      v := Apply(cfg, w, step);
    }

    /** The route, once the containers are gone. */
    method DropAfter(cfg: Config, c: Caller, id: string, others: seq<Action>, w: World)
      returns (v: World, ghost script: seq<Action>)
      requires Shows(cfg, w)
      requires (c == Boots(id) && id in w.minted && At(w, id, Dropping))
               || (c.Reaps? && w.reaper.Removing? && w.reaper.id == id)
      modifies registry, docker
      ensures Shows(cfg, v) && Path(cfg, w, script, v, c, [RemoveStep(c, id)])
      ensures c.Boots? ==> id in v.minted && At(v, id, Erred)
    {
      hide Path, Heard, Meanwhile, R.HostOf;
      PathStart(cfg, w, c);
      StillStands(cfg, w, c, others);
      PathOthers(cfg, w, [], w, c, [], others);
      script := [] + Heard(cfg, w, c, others);
      v := Interfere(cfg, c, others, w);
      registry.Remove(id);
      PathAct(cfg, w, script, v, c, [], RemoveStep(c, id), [RemoveStep(c, id)]);
      script := script + [RemoveStep(c, id)];
      v := Apply(cfg, v, RemoveStep(c, id));
    }

    /** Its own steps are those of its fate, and it succeeds exactly when every part did. What
        a failed `up` printed reaches the Owner without the minted password; what a failed
        attach printed reaches them as it is. */
    method Provision(cfg: Config, id: string, f: Fate, others: nat -> seq<Action>, w: World)
      returns (r: Provisioned, v: World, ghost script: seq<Action>)
      requires Shows(cfg, w) && At(w, id, Spawned) && id in w.minted
      modifies registry, docker
      ensures r.Started? <==> Succeeds(settings, id, f)
      ensures r.Started? <==> Startable(settings, id, f.inputs) && f.up && (settings.traefik == "" || f.attach)
      ensures r.Started? ==> r.url == UiUrl(f.inputs.project.value.manifest.services)
      ensures Shows(cfg, v) && Path(cfg, w, script, v, Boots(id), ProvisionSteps(settings, id, f))
      ensures r.NotStarted? ==> id in v.minted && At(v, id, Erred)
      ensures if Startable(settings, id, f.inputs) && f.up && !Attached(settings, f)
              then r == NotStarted(f.attachOutput)
              else Redacted(r, f.inputs)
    {
      hide Path, Plannable, UpSteps, R.HostOf, UiOf, ApisOf;
      var c := Boots(id);
      PathStart(cfg, w, c);
      StillStands(cfg, w, c, others(0));
      PathOthers(cfg, w, [], w, c, [], others(0));
      script := [] + Heard(cfg, w, c, others(0));
      v := Interfere(cfg, c, others(0), w);
      var ready := PrepareBoot(settings, id, f.inputs);
      if ready.None? {
        PathAct(cfg, w, script, v, c, [], SourceFails(id), [SourceFails(id)]);
        script := script + [SourceFails(id)];
        v := Apply(cfg, v, SourceFails(id));
        return NotStarted(""), v, script;
      }
      ghost var before := v;
      ghost var rest;
      var ended;
      ended, v, rest := StageAndUp(cfg, id, f, ready.value, others, v);
      PathJoin(cfg, w, script, before, rest, v, c, [], ProvisionSteps(settings, id, f),
               ProvisionSteps(settings, id, f));
      script := script + rest;
      if ended.Some? {
        return NotStarted(ended.value), v, script;
      }
      return Provisioned.Started(ready.value.url), v, script;
    }

    /** The backends are staged on the route, then the Stack is brought up. */
    method StageAndUp(cfg: Config, id: string, f: Fate, ready: Ready, others: nat -> seq<Action>, w: World)
      returns (ended: Option<string>, v: World, ghost script: seq<Action>)
      requires ValidSessionId(id) && At(w, id, Spawned) && id in w.minted && Shows(cfg, w)
      modifies registry, docker
      ensures ended.None? <==> f.up && Attached(settings, f)
      ensures Shows(cfg, v)
      ensures Path(cfg, w, script, v, Boots(id),
                [Stage(id, UiOf(ready.services, id), ApisOf(ready.services, id))] + UpSteps(settings, id, f))
      ensures ended.Some? ==> id in v.minted && At(v, id, Erred)
      ensures f.up && !Attached(settings, f) ==> ended == Some(f.attachOutput)
      ensures !f.up ==> forall t :: t in ready.secrets ==> HoldsNo(ended.value, t)
    {
      hide Path, R.HostOf;
      var c := Boots(id);
      var ui, apis := SessionBackends(ready.services, id);
      var route := registry.Add(id, ui, apis);
      PathStart(cfg, w, c);
      PathAct(cfg, w, [], w, c, [], Stage(id, ui, apis), [Stage(id, ui, apis)]);
      script := [] + [Stage(id, ui, apis)];
      v := Apply(cfg, w, Stage(id, ui, apis));
      ghost var staged := v;
      ghost var rest;
      ended, v, rest := BringUp(cfg, id, f, ready.secrets, others, v);
      PathJoin(cfg, w, script, staged, rest, v, c, [Stage(id, ui, apis)], UpSteps(settings, id, f),
               [Stage(id, ui, apis)] + UpSteps(settings, id, f));
      script := script + rest;
    }

    /** From `compose up` on: None is success, otherwise what there is to tell the Owner. */
    method BringUp(cfg: Config, id: string, f: Fate, secrets: seq<string>, others: nat -> seq<Action>, w: World)
      returns (ended: Option<string>, v: World, ghost script: seq<Action>)
      requires ValidSessionId(id) && At(w, id, Staged) && id in w.minted && Shows(cfg, w)
      modifies registry, docker
      ensures ended.None? <==> f.up && Attached(settings, f)
      ensures Shows(cfg, v) && Path(cfg, w, script, v, Boots(id), UpSteps(settings, id, f))
      ensures ended.Some? ==> id in v.minted && At(v, id, Erred)
      ensures f.up && !Attached(settings, f) ==> ended == Some(f.attachOutput)
      ensures !f.up ==> forall t :: t in secrets ==> HoldsNo(ended.value, t)
    {
      hide Path;
      var c := Boots(id);
      v, script := StartUp(cfg, id, others, w);
      ghost var upping := v;
      ghost var rest;
      if !f.up {
        ended, v, rest := FailUp(cfg, id, f, secrets, others, v);
        PathJoin(cfg, w, script, upping, rest, v, c, [UpBegins(id)], [UpFails(id)] + TeardownSteps(c, id, f.down),
                 UpSteps(settings, id, f));
      } else {
        ended, v, rest := Attach(cfg, id, f, others, v);
        PathJoin(cfg, w, script, upping, rest, v, c, [UpBegins(id)], AttachSteps(settings, id, f),
                 UpSteps(settings, id, f));
      }
      script := script + rest;
    }

    /** `compose up` begins, and others act before it ends. */
    method StartUp(cfg: Config, id: string, others: nat -> seq<Action>, w: World)
      returns (v: World, ghost script: seq<Action>)
      requires At(w, id, Staged) && id in w.minted && Shows(cfg, w)
      modifies registry, docker
      ensures Shows(cfg, v) && id in v.minted && At(v, id, Upping)
      ensures Path(cfg, w, script, v, Boots(id), [UpBegins(id)])
    {
      hide Path;
      var c := Boots(id);
      PathStart(cfg, w, c);
      StillStands(cfg, w, c, others(1));
      PathOthers(cfg, w, [], w, c, [], others(1));
      script := [] + Heard(cfg, w, c, others(1));
      v := Interfere(cfg, c, others(1), w);
      OnlyThisProject(id);
      docker.BeginUp(ProjectName(id));
      PathAct(cfg, w, script, v, c, [], UpBegins(id), [UpBegins(id)]);
      script := script + [UpBegins(id)];
      v := Apply(cfg, v, UpBegins(id));
      assert Shows(cfg, v);
      StillStands(cfg, v, c, others(2));
      PathOthers(cfg, w, script, v, c, [UpBegins(id)], others(2));
      script := script + Heard(cfg, v, c, others(2));
      v := Interfere(cfg, c, others(2), v);
    }

    method FailUp(cfg: Config, id: string, f: Fate, secrets: seq<string>, others: nat -> seq<Action>, w: World)
      returns (ended: Option<string>, v: World, ghost script: seq<Action>)
      requires ValidSessionId(id) && !f.up && At(w, id, Upping) && id in w.minted && Shows(cfg, w)
      modifies registry, docker
      ensures Shows(cfg, v) && Path(cfg, w, script, v, Boots(id), [UpFails(id)] + TeardownSteps(Boots(id), id, f.down))
      ensures id in v.minted && At(v, id, Erred)
      ensures ended.Some? && forall t :: t in secrets ==> HoldsNo(ended.value, t)
      ensures (forall k :: 0 <= k < |secrets| ==> secrets[k] == "" || !Occurs(f.output, secrets[k])) ==>
                ended == Some(f.output)
      ensures |secrets| == 1 && secrets[0] != "" ==> ended == Some(ReplaceAll(f.output, secrets[0], MARKER))
    {
      hide Path;
      var c := Boots(id);
      var up := docker.EndUp(ProjectName(id), false);
      v, script := TearAfter(cfg, id, UpFails(id), f.down, others, w);
      var output := ScrubSecrets(f.output, secrets);
      return Some(output), v, script;
    }

    /** A boot's own teardown, right after the step that failed. */
    method TearAfter(cfg: Config, id: string, failed: Action, down: bool, others: nat -> seq<Action>, w: World)
      returns (v: World, ghost script: seq<Action>)
      requires ValidSessionId(id) && Shows(cfg, w) && id in w.minted && Mine(failed, Boots(id))
               && (failed.UpFails? || failed.AttachFails?)
      requires Enabled(cfg, w, failed)
      modifies registry, docker
      ensures Shows(cfg, v) && Path(cfg, w, script, v, Boots(id), [failed] + TeardownSteps(Boots(id), id, down))
      ensures id in v.minted && At(v, id, Erred)
    {
      hide Path;
      var c := Boots(id);
      PathStart(cfg, w, c);
      PathAct(cfg, w, [], w, c, [], failed, [failed]);
      script := [] + [failed];
      v := Apply(cfg, w, failed);
      assert Shows(cfg, v);
      StillStands(cfg, v, c, others(3));
      PathOthers(cfg, w, script, v, c, [failed], others(3));
      script := script + Heard(cfg, v, c, others(3));
      v := Interfere(cfg, c, others(3), v);
      ghost var tearing := v;
      var ok;
      ghost var rest;
      ok, v, rest := Teardown(cfg, c, id, down, others(4), v);
      PathJoin(cfg, w, script, tearing, rest, v, c, [failed], TeardownSteps(c, id, ok),
               [failed] + TeardownSteps(c, id, ok));
      script := script + rest;
    }

    method Attach(cfg: Config, id: string, f: Fate, others: nat -> seq<Action>, w: World)
      returns (ended: Option<string>, v: World, ghost script: seq<Action>)
      requires ValidSessionId(id) && At(w, id, Upping) && id in w.minted && Shows(cfg, w)
      modifies registry, docker
      ensures Shows(cfg, v) && Path(cfg, w, script, v, Boots(id), AttachSteps(settings, id, f))
      ensures ended == if Attached(settings, f) then None else Some(f.attachOutput)
      ensures ended.Some? ==> id in v.minted && At(v, id, Erred)
    {
      hide Path;
      var c := Boots(id);
      v, script := FinishUp(cfg, id, others, w);
      ghost var attaching := v;
      ghost var rest;
      if Attached(settings, f) {
        v, rest := GoLive(cfg, id, others, v);
        PathJoin(cfg, w, script, attaching, rest, v, c, [UpSucceeds(id)], [AttachSucceeds(id), Promote(id)],
                 AttachSteps(settings, id, f));
        ended := None;
      } else {
        v, rest := TearAfter(cfg, id, AttachFails(id), f.down, others, v);
        PathJoin(cfg, w, script, attaching, rest, v, c, [UpSucceeds(id)],
                 [AttachFails(id)] + TeardownSteps(c, id, f.down),
                 AttachSteps(settings, id, f));
        ended := Some(f.attachOutput);
      }
      script := script + rest;
    }

    method FinishUp(cfg: Config, id: string, others: nat -> seq<Action>, w: World)
      returns (v: World, ghost script: seq<Action>)
      requires At(w, id, Upping) && id in w.minted && Shows(cfg, w)
      modifies registry, docker
      ensures Shows(cfg, v) && id in v.minted && At(v, id, Attaching)
      ensures Path(cfg, w, script, v, Boots(id), [UpSucceeds(id)])
    {
      hide Path;
      var c := Boots(id);
      OnlyThisProject(id);
      var up := docker.EndUp(ProjectName(id), true);
      PathStart(cfg, w, c);
      PathAct(cfg, w, [], w, c, [], UpSucceeds(id), [UpSucceeds(id)]);
      script := [] + [UpSucceeds(id)];
      v := Apply(cfg, w, UpSucceeds(id));
      assert Shows(cfg, v);
      StillStands(cfg, v, c, others(5));
      PathOthers(cfg, w, script, v, c, [UpSucceeds(id)], others(5));
      script := script + Heard(cfg, v, c, others(5));
      v := Interfere(cfg, c, others(5), v);
    }

    /** The proxy is attached; the route may have gone meanwhile, and is then left alone. */
    method GoLive(cfg: Config, id: string, others: nat -> seq<Action>, w: World)
      returns (v: World, ghost script: seq<Action>)
      requires At(w, id, Attaching) && id in w.minted && Shows(cfg, w)
      modifies registry, docker
      ensures Shows(cfg, v) && Path(cfg, w, script, v, Boots(id), [AttachSucceeds(id), Promote(id)])
    {
      hide Path;
      var c := Boots(id);
      PathStart(cfg, w, c);
      PathAct(cfg, w, [], w, c, [], AttachSucceeds(id), [AttachSucceeds(id)]);
      script := [] + [AttachSucceeds(id)];
      v := Apply(cfg, w, AttachSucceeds(id));
      assert Shows(cfg, v);
      StillStands(cfg, v, c, others(6));
      PathOthers(cfg, w, script, v, c, [AttachSucceeds(id)], others(6));
      script := script + Heard(cfg, v, c, others(6));
      v := Interfere(cfg, c, others(6), v);
      var present := registry.Promote(id);
      PathAct(cfg, w, script, v, c, [AttachSucceeds(id)], Promote(id), [AttachSucceeds(id), Promote(id)]);
      script := script + [Promote(id)];
      v := Apply(cfg, v, Promote(id));
    }
  }

  datatype Played = AtCapacity | MintFailed | Admitted(id: string, url: string)

  class Manager {
    const runner: Compose
    const scheme: string
    const maxSessions: int
    var cancelled: bool
    var inflight: nat

    constructor (runner: Compose, scheme: string, maxSessions: int)
      requires runner.registry.routes == map[] && runner.docker.stacks == {}
      ensures Shows(Config(runner.registry.domain, maxSessions), START)
      ensures this.runner == runner && this.scheme == scheme
    {
      this.runner, this.scheme, this.maxSessions := runner, scheme, maxSessions;
      cancelled, inflight := false, 0;
    }

    ghost predicate Shows(cfg: Config, w: World)
      reads this, runner.registry, runner.docker
    {
      && runner.Shows(cfg, w) && cfg.cap == maxSessions
      && cancelled == w.cancelled && inflight == |Counted(w)|
    }

    method Interfere(cfg: Config, c: Caller, others: seq<Action>, w: World) returns (v: World)
      requires runner.Shows(cfg, w) && cfg.cap == maxSessions
      modifies this, runner.registry, runner.docker
      ensures v == Meanwhile(cfg, w, c, others) && Shows(cfg, v)
    {
      v := runner.Interfere(cfg, c, others, w);
      cancelled, inflight := v.cancelled, |Counted(v)|;
    }

    /** Under the admission lock: refused exactly at the cap, counted over every route;
        otherwise the id, which nobody has, gets its route, whatever the other goroutines do
        between the check and that. Then, without the lock, and again whatever they do, the
        boot is counted in flight and launched. x is the world in between. */
    method Play(cfg: Config, minted: Option<string>, others: nat -> seq<Action>, w: World)
      returns (r: Played, v: World, ghost script: seq<Action>, ghost x: World, ghost tail: seq<Action>)
      requires Shows(cfg, w) && !w.admitting && (forall id :: Fine(w, id))
      requires minted.Some? ==> minted.value !in w.minted
      modifies this, runner.registry, runner.docker
      ensures Shows(cfg, v) && !x.admitting && (!r.Admitted? ==> x == v)
      ensures r.AtCapacity? <==> maxSessions > 0 && |w.routes| >= maxSessions
      ensures r.AtCapacity? ==> v == w
      ensures r.MintFailed? ==> minted.None? && Path(cfg, w, script, v, Plays, [Admit, Forgo])
      ensures r.Admitted? ==>
                && minted == Some(r.id) && r.url == scheme + "://" + R.HostOf(cfg.domain, r.id)
                && Path(cfg, w, script, x, Plays, [Admit, Action.Play(r.id)]) && At(x, r.id, Uncounted)
                && Path(cfg, x, tail, v, Boots(r.id), [Launch(r.id)]) && At(v, r.id, Spawned) && r.id in v.minted
    {
      hide Path, Fine, R.WellFormed;
      script, tail, v, x := [], [], w, w;
      var n := runner.registry.Len();
      if maxSessions > 0 && n >= maxSessions {
        return AtCapacity, v, script, x, tail;
      }
      PathStart(cfg, w, Plays);
      PathAct(cfg, w, [], w, Plays, [], Admit, [Admit]);
      script, v := [] + [Admit], Apply(cfg, w, Admit);
      FineAlong(cfg, w, Admit);
      StillStands(cfg, v, Plays, others(0));
      FineMeanwhile(cfg, v, Plays, others(0));
      PathOthers(cfg, w, script, v, Plays, [Admit], others(0));
      script := script + Heard(cfg, v, Plays, others(0));
      v := Interfere(cfg, Plays, others(0), v);
      if minted.None? {
        PathAct(cfg, w, script, v, Plays, [Admit], Forgo, [Admit, Forgo]);
        script, v := script + [Forgo], Apply(cfg, v, Forgo);
        return MintFailed, v, script, v, tail;
      }
      var id := minted.value;
      assert id !in v.boots by { assert Fine(v, id); NotInFlight(v, id); }
      var route := runner.registry.Add(id, R.NO_BACKEND, []);
      PathAct(cfg, w, script, v, Plays, [Admit], Action.Play(id), [Admit, Action.Play(id)]);
      AddedIsUncounted(cfg, v, id);
      script, v := script + [Action.Play(id)], Apply(cfg, v, Action.Play(id));
      x := v;
      v, tail := LaunchBoot(cfg, id, others(1), v);
      return Admitted(id, scheme + "://" + R.HostOf(runner.registry.domain, id)), v, script, x, tail;
    }

    /** The boot is counted in flight, and its goroutine begins. */
    method LaunchBoot(cfg: Config, id: string, others: seq<Action>, w: World)
      returns (v: World, ghost script: seq<Action>)
      requires Shows(cfg, w) && At(w, id, Uncounted) && id in w.minted
      modifies this, runner.registry, runner.docker
      ensures Shows(cfg, v) && At(v, id, Spawned) && id in v.minted
      ensures Path(cfg, w, script, v, Boots(id), [Launch(id)])
    {
      hide Path, R.HostOf;
      var c := Boots(id);
      PathStart(cfg, w, c);
      StillStands(cfg, w, c, others);
      PathOthers(cfg, w, [], w, c, [], others);
      script := [] + Heard(cfg, w, c, others);
      v := Interfere(cfg, c, others, w);
      inflight := inflight + 1;
      CountedMore(v, id);
      PathAct(cfg, w, script, v, c, [], Launch(id), [Launch(id)]);
      script, v := script + [Launch(id)], Apply(cfg, v, Launch(id));
    }

    /** The background boot, to its end. */
    method Boot(cfg: Config, id: string, f: Fate, others: nat -> seq<Action>, w: World)
      returns (v: World, ghost script: seq<Action>)
      requires Shows(cfg, w) && At(w, id, Spawned) && id in w.minted
      modifies this, runner.registry, runner.docker
      ensures Shows(cfg, v) && Path(cfg, w, script, v, Boots(id), BootSteps(runner.settings, id, f))
    {
      hide Path;
      var provisioned;
      provisioned, v, script := runner.Provision(cfg, id, f, others, w);
      cancelled, inflight := v.cancelled, |Counted(v)| + if provisioned.Started? then 1 else 0;
      if provisioned.NotStarted? {
        ghost var erred := v;
        ghost var rest;
        v, rest := EndFailed(cfg, id, others, v);
        PathJoin(cfg, w, script, erred, rest, v, Boots(id), ProvisionSteps(runner.settings, id, f),
                 [Decide(id), Settle(id)],
                 BootSteps(runner.settings, id, f));
        script := script + rest;
      } else {
        assert ProvisionSteps(runner.settings, id, f) + [] == ProvisionSteps(runner.settings, id, f);
      }
      inflight := inflight - 1;
    }

    /** The context is read, and only then is the route removed or turned Failed; the boot is
        counted in flight until that is done. */
    method EndFailed(cfg: Config, id: string, others: nat -> seq<Action>, w: World)
      returns (v: World, ghost script: seq<Action>)
      requires Shows(cfg, w) && At(w, id, Erred) && id in w.minted
      modifies this, runner.registry, runner.docker
      ensures runner.Shows(cfg, v) && cfg.cap == maxSessions && cancelled == v.cancelled && inflight == |Counted(v)| + 1
      ensures Path(cfg, w, script, v, Boots(id), [Decide(id), Settle(id)])
    {
      hide Path, R.HostOf;
      var c := Boots(id);
      PathStart(cfg, w, c);
      StillStands(cfg, w, c, others(7));
      PathOthers(cfg, w, [], w, c, [], others(7));
      script := [] + Heard(cfg, w, c, others(7));
      v := Interfere(cfg, c, others(7), w);
      var done := cancelled;
      PathAct(cfg, w, script, v, c, [], Decide(id), [Decide(id)]);
      script, v := script + [Decide(id)], Apply(cfg, v, Decide(id));
      ghost var decided := v;
      ghost var rest;
      v, rest := SettleRoute(cfg, id, done, others(8), v);
      PathJoin(cfg, w, script, decided, rest, v, c, [Decide(id)], [Settle(id)], [Decide(id), Settle(id)]);
      script := script + rest;
    }

    method SettleRoute(cfg: Config, id: string, done: bool, others: seq<Action>, w: World)
      returns (v: World, ghost script: seq<Action>)
      requires runner.Shows(cfg, w) && cfg.cap == maxSessions && id in w.minted
      requires At(w, id, if done then Leaving else Failing)
      modifies this, runner.registry, runner.docker
      ensures runner.Shows(cfg, v) && cancelled == v.cancelled && inflight == |Counted(v)| + 1
      ensures Path(cfg, w, script, v, Boots(id), [Settle(id)])
    {
      hide Path, R.HostOf;
      var c := Boots(id);
      PathStart(cfg, w, c);
      StillStands(cfg, w, c, others);
      PathOthers(cfg, w, [], w, c, [], others);
      script := [] + Heard(cfg, w, c, others);
      v := Interfere(cfg, c, others, w);
      CountedLess(v, id);
      if done {
        runner.registry.Remove(id);
      } else {
        runner.registry.Fail(id, R.Failed);
      }
      PathAct(cfg, w, script, v, c, [], Settle(id), [Settle(id)]);
      script, v := script + [Settle(id)], Apply(cfg, v, Settle(id));
    }

    /** Cancelling, and waiting until the boots have drained or the deadline comes; others are
        what happens in that time. When both have come, either may be reported. A Play that has
        added its route is not waited for until it is counted. */
    method Shutdown(cfg: Config, others: seq<Action>, late: bool, w: World)
      returns (drained: bool, v: World, ghost script: seq<Action>)
      requires Shows(cfg, w)
      modifies this, runner.registry, runner.docker
      ensures Shows(cfg, v) && v.cancelled && Path(cfg, w, script, v, Stops, [Cancel])
      ensures drained <==> Counted(v) == {} && !late
    {
      hide Path;
      PathStart(cfg, w, Stops);
      PathAct(cfg, w, [], w, Stops, [], Cancel, [Cancel]);
      script, v := [] + [Cancel], Apply(cfg, w, Cancel);
      cancelled := true;
      StillStands(cfg, v, Stops, others);
      PathOthers(cfg, w, script, v, Stops, [Cancel], others);
      script := script + Heard(cfg, v, Stops, others);
      v := Interfere(cfg, Stops, others, v);
      drained := inflight == 0 && !late;
    }
  }

  lemma FineAlong(cfg: Config, w: World, a: Action)
    requires (forall id :: Fine(w, id)) && Enabled(cfg, w, a)
    ensures forall id :: Fine(Apply(cfg, w, a), id)
  {
    forall id ensures Fine(Apply(cfg, w, a), id) { FineIsKept(cfg, w, a, id); }
  }

  lemma {:induction false} FineAfter(cfg: Config, w: World, actions: seq<Action>)
    requires (forall id :: Fine(w, id)) && Runs(cfg, w, actions)
    ensures forall id :: Fine(After(cfg, w, actions), id)
    decreases |actions|
  {
    if actions != [] {
      FineAlong(cfg, w, actions[0]);
      FineAfter(cfg, Apply(cfg, w, actions[0]), actions[1..]);
    }
  }

  lemma FineMeanwhile(cfg: Config, w: World, c: Caller, others: seq<Action>)
    requires forall id :: Fine(w, id)
    ensures forall id :: Fine(Meanwhile(cfg, w, c, others), id)
  {
    FineAfter(cfg, w, Heard(cfg, w, c, others));
  }

  lemma NotInFlight(w: World, id: string)
    requires Fine(w, id) && id !in w.minted
    ensures id !in w.boots
  {
  }

  lemma AddedIsUncounted(cfg: Config, w: World, id: string)
    requires Enabled(cfg, w, Action.Play(id)) && id !in w.boots
    ensures Counted(Apply(cfg, w, Action.Play(id))) == Counted(w)
  {
  }

  lemma CountedMore(w: World, id: string)
    requires At(w, id, Uncounted)
    ensures |Counted(To(w, id, Spawned))| == |Counted(w)| + 1
  {
    assert Counted(To(w, id, Spawned)) == Counted(w) + {id};
  }

  lemma CountedLess(w: World, id: string)
    requires id in w.boots && w.boots[id] != Uncounted
    ensures |Counted(Done(w, id))| == |Counted(w)| - 1
  {
    assert Counted(w) == Counted(Done(w, id)) + {id};
  }
}
