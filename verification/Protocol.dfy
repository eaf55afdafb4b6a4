/** The Session lifecycle as a step relation over the shared state. Every step is one thing
    that is atomic in the program: one locked Registry method, one read of the shared
    context, or one outcome of a docker command. Steps of different goroutines interleave
    freely, docker may fail at every point, and a boot's context may be cancelled.
    (internal/session/session.go, internal/session/reaper.go, internal/runner/compose.go) */
module Protocol {
  import opened Text
  import R = Registry

  /** cap is maxSessions; zero or less switches the admission check off. */
  datatype Config = Config(domain: string, cap: int)

  /** Where the background boot of a Session stands. */
  datatype Boot =
    | Uncounted   // its route is there, and it is not counted in flight yet
    | Spawned     // counted; Provision has not touched the registry yet
    | Staged      // backends re-Added, `compose up` not begun
    | Upping      // `compose up` running: containers may exist
    | Attaching   // up succeeded, the proxy is being attached
    | Promoting   // attached, about to Promote
    | Tearing     // up or attach failed, `compose down` pending
    | Dropping    // down succeeded, the route is about to be removed
    | Erred       // Provision returned an error; boot is about to look at the context
    | Failing     // the context was not done: the route is about to turn Failed
    | Leaving     // the context was done: the route is about to be removed

  /** Where the reaper stands. todo is what is left of the snapshot of this tick. */
  datatype Reaping =
    | Resting
    | Scanning(todo: map<string, R.State>)
    | Downing(todo: map<string, R.State>, id: string, crash: bool)   // `compose down` pending
    | Removing(todo: map<string, R.State>, id: string, crash: bool)  // down succeeded, Remove pending
    | Marking(todo: map<string, R.State>, id: string)                // removed, Fail(Crashed) pending

  /** stacks are the Sessions that may have containers; admitting is held by the Play that
      passed the capacity check and has not added its route. The last two fields are history:
      early are the Sessions the reaper began to tear down while their boot was in flight,
      leaked are those whose failed boot could not bring its containers down. */
  datatype World = World(
    routes: R.Routes, stacks: set<string>, boots: map<string, Boot>, minted: set<string>,
    admitting: bool, cancelled: bool, reaper: Reaping, early: set<string>, leaked: set<string>)

  const START := World(map[], {}, map[], {}, false, false, Resting, {}, {})

  datatype Action =
    | Admit
    | Play(id: string)
    | Forgo
    | Launch(id: string)
    | Cancel
    // the boot goroutine
    | SourceFails(id: string)
    | Stage(id: string, ui: R.Backend, apis: seq<R.Backend>)
    | UpBegins(id: string)
    | UpSucceeds(id: string)
    | UpFails(id: string)
    | AttachSucceeds(id: string)
    | AttachFails(id: string)
    | Promote(id: string)
    | DownSucceeds(id: string)
    | DownFails(id: string)
    | DropRoute(id: string)
    | Decide(id: string)
    | Settle(id: string)
    // the reaper goroutine
    | TickBegins
    | Linger(id: string)
    | Reap(id: string, crash: bool)
    | ReapDownSucceeds
    | ReapDownFails
    | ReapRemove
    | MarkCrashed
    | TickEnds

  predicate At(w: World, id: string, b: Boot) { id in w.boots && w.boots[id] == b }

  predicate Enabled(cfg: Config, w: World, a: Action)
  {
    match a
    case Admit => !w.admitting && (cfg.cap > 0 ==> |w.routes| < cfg.cap)
    case Play(id) => w.admitting && id !in w.minted
    case Forgo => w.admitting
    case Launch(id) => At(w, id, Uncounted)
    case Cancel => true
    case SourceFails(id) => At(w, id, Spawned)
    case Stage(id, _, _) => At(w, id, Spawned)
    case UpBegins(id) => At(w, id, Staged)
    case UpSucceeds(id) => At(w, id, Upping)
    case UpFails(id) => At(w, id, Upping)
    case AttachSucceeds(id) => At(w, id, Attaching)
    case AttachFails(id) => At(w, id, Attaching)
    case Promote(id) => At(w, id, Promoting)
    case DownSucceeds(id) => At(w, id, Tearing)
    case DownFails(id) => At(w, id, Tearing)
    case DropRoute(id) => At(w, id, Dropping)
    case Decide(id) => At(w, id, Erred)
    case Settle(id) => At(w, id, Failing) || At(w, id, Leaving)
    case TickBegins => w.reaper == Resting
    case Linger(id) => w.reaper.Scanning? && id in w.reaper.todo && w.reaper.todo[id].Terminal()
    case Reap(id, crash) =>
      && w.reaper.Scanning? && id in w.reaper.todo && !w.reaper.todo[id].Terminal()
      && (crash ==> w.reaper.todo[id] == R.Live)
    case ReapDownSucceeds => w.reaper.Downing?
    case ReapDownFails => w.reaper.Downing?
    case ReapRemove => w.reaper.Removing?
    case MarkCrashed => w.reaper.Marking?
    case TickEnds => w.reaper.Scanning?
  }

  function To(w: World, id: string, b: Boot): World { w.(boots := w.boots[id := b]) }

  function Done(w: World, id: string): World { w.(boots := w.boots - {id}) }

  function Apply(cfg: Config, w: World, a: Action): World
    requires Enabled(cfg, w, a)
  {
    match a
    case Admit => w.(admitting := true)
    case Play(id) =>
      To(w, id, Uncounted).(
        routes := R.Added(cfg.domain, w.routes, id, R.NO_BACKEND, []), minted := w.minted + {id}, admitting := false)
    case Forgo => w.(admitting := false)
    case Launch(id) => To(w, id, Spawned)
    case Cancel => w.(cancelled := true)
    case SourceFails(id) => To(w, id, Erred)
    case Stage(id, ui, apis) => To(w, id, Staged).(routes := R.Added(cfg.domain, w.routes, id, ui, apis))
    case UpBegins(id) => To(w, id, Upping).(stacks := w.stacks + {id})
    case UpSucceeds(id) => To(w, id, Attaching).(stacks := w.stacks + {id})
    case UpFails(id) => To(w, id, Tearing)
    case AttachSucceeds(id) => To(w, id, Promoting)
    case AttachFails(id) => To(w, id, Tearing)
    case Promote(id) => Done(w, id).(routes := R.Promoted(w.routes, id))
    case DownSucceeds(id) => To(w, id, Dropping).(stacks := w.stacks - {id})
    case DownFails(id) => To(w, id, Erred).(leaked := w.leaked + {id})
    case DropRoute(id) => To(w, id, Erred).(routes := w.routes - {id})
    case Decide(id) => To(w, id, if w.cancelled then Leaving else Failing)
    case Settle(id) =>
      Done(w, id).(
        routes := if At(w, id, Leaving) then w.routes - {id} else R.FailedAs(cfg.domain, w.routes, id, R.Failed))
    case TickBegins => w.(reaper := Scanning(map id | id in w.routes :: w.routes[id].state))
    case Linger(id) => w.(routes := w.routes - {id}, reaper := Scanning(w.reaper.todo - {id}))
    case Reap(id, crash) =>
      w.(reaper := Downing(w.reaper.todo - {id}, id, crash),
         early := if id in w.boots then w.early + {id} else w.early)
    case ReapDownSucceeds =>
      w.(stacks := w.stacks - {w.reaper.id}, reaper := Removing(w.reaper.todo, w.reaper.id, w.reaper.crash))
    case ReapDownFails => w.(reaper := Scanning(w.reaper.todo))
    case ReapRemove =>
      w.(routes := w.routes - {w.reaper.id},
         reaper := if w.reaper.crash then Marking(w.reaper.todo, w.reaper.id) else Scanning(w.reaper.todo))
    case MarkCrashed =>
      w.(routes := R.FailedAs(cfg.domain, w.routes, w.reaper.id, R.Crashed), reaper := Scanning(w.reaper.todo))
    case TickEnds => w.(reaper := Resting)
  }

  /** The actions can be taken one after the other from w. */
  predicate Runs(cfg: Config, w: World, actions: seq<Action>)
    decreases |actions|
  {
    actions == [] || (Enabled(cfg, w, actions[0]) && Runs(cfg, Apply(cfg, w, actions[0]), actions[1..]))
  }

  function After(cfg: Config, w: World, actions: seq<Action>): World
    requires Runs(cfg, w, actions)
    decreases |actions|
  {
    if actions == [] then w else After(cfg, Apply(cfg, w, actions[0]), actions[1..])
  }

  /** The Sessions holding a Booting or Live route. */
  function Active(routes: R.Routes): set<string>
  {
    set id | id in routes && !routes[id].state.Terminal()
  }

  /** The boots that the in-flight count has. */
  function Counted(w: World): set<string> { set id | id in w.boots && w.boots[id] != Uncounted }

  // ---- The invariant ----

  /** Only minted ids appear anywhere. */
  ghost predicate MintedAt(w: World, id: string)
  {
    (|| id in w.routes || id in w.stacks || id in w.boots || id in w.early
     || (!w.reaper.Resting? && id in w.reaper.todo)
     || ((w.reaper.Downing? || w.reaper.Removing? || w.reaper.Marking?) && id == w.reaper.id)) ==>
      id in w.minted
  }

  /** The boot is over but for its route. */
  predicate Ending(b: Boot) { b in {Erred, Failing, Leaving} }

  /** A boot in flight that nobody disturbed still owns its Booting route, and no route
      leaves Booting while its boot is in flight. */
  ghost predicate OwnsRoute(w: World, id: string)
  {
    && (id in w.boots && id !in w.early && !Ending(w.boots[id]) ==> id in w.routes)
    && (id in w.boots && id in w.routes ==> w.routes[id].state == R.Booting)
  }

  predicate IsActive(routes: R.Routes, id: string) { id in routes && !routes[id].state.Terminal() }

  predicate Excused(w: World, id: string) { id in w.leaked || id in w.early }

  /** Outside the two history sets, containers exist only behind a Booting or Live route. */
  ghost predicate Visible(w: World, id: string)
  {
    && (id in w.stacks && !Excused(w, id) ==> IsActive(w.routes, id))
    && (id in w.boots && w.boots[id] in {Uncounted, Spawned, Staged} ==> id !in w.stacks)
    && (id in w.boots && (w.boots[id] == Dropping || Ending(w.boots[id])) ==> id !in w.stacks || Excused(w, id))
  }

  /** The reaper acts on a snapshot, but what it acts on cannot have moved underneath it. */
  ghost predicate SafeAt(w: World, id: string)
  {
    && (!w.reaper.Resting? && id in w.reaper.todo && w.reaper.todo[id] != R.Booting ==>
          id !in w.boots && (w.reaper.todo[id].Terminal() && id in w.stacks ==> Excused(w, id)))
    && (w.reaper.Downing? || w.reaper.Removing? ==>
          id == w.reaper.id && id in w.boots ==> id in w.early && !w.reaper.crash)
    && (w.reaper.Removing? || w.reaper.Marking? ==>
          id == w.reaper.id && id in w.stacks ==> Excused(w, id))
    && (w.reaper.Marking? && id == w.reaper.id ==> id !in w.boots)
  }

  /** What all of them say of one Session. */
  ghost predicate Fine(w: World, id: string) { MintedAt(w, id) && OwnsRoute(w, id) && Visible(w, id) && SafeAt(w, id) }

  /** A Play that passed the check still has its slot: nothing else can take it. */
  ghost predicate WithinCap(cfg: Config, w: World)
  {
    cfg.cap > 0 ==> |Active(w.routes) - w.early| + (if w.admitting then 1 else 0) <= cfg.cap
  }

  ghost predicate Inv(cfg: Config, w: World)
  {
    R.WellFormed(cfg.domain, w.routes) && (forall id :: Fine(w, id)) && WithinCap(cfg, w)
  }

  lemma SubsetIsNoLarger<T>(a: set<T>, b: set<T>)
    requires a <= b
    ensures |a| <= |b|
  {
    assert b == a + (b - a);
  }

  lemma CapIsKept(cfg: Config, w: World, a: Action)
    requires Inv(cfg, w) && Enabled(cfg, w, a)
    ensures WithinCap(cfg, Apply(cfg, w, a))
  {
    ActiveStep(cfg, w, a);
    AdmittingStep(cfg, w, a);
    hide Fine, R.WellFormed, Active, Apply, Enabled;
    var before, after := Active(w.routes) - w.early, Active(Apply(cfg, w, a).routes) - Apply(cfg, w, a).early;
    if a.Admit? {
      ActiveAreRoutes(w.routes);
      SubsetIsNoLarger(before, w.routes.Keys);
      SubsetIsNoLarger(after, before);
    } else if a.Play? {
      SubsetIsNoLarger(after, before + {a.id});
    } else {
      SubsetIsNoLarger(after, before);
    }
  }

  /** The admission lock is taken under the cap, and released by adding the route or giving up. */
  lemma AdmittingStep(cfg: Config, w: World, a: Action)
    requires Enabled(cfg, w, a)
    ensures a.Admit? ==> !w.admitting && (cfg.cap > 0 ==> |w.routes| < cfg.cap)
    ensures a.Play? ==> w.admitting && !Apply(cfg, w, a).admitting
    ensures !a.Admit? ==> Apply(cfg, w, a).admitting ==> w.admitting
  {
  }

  lemma ActiveAreRoutes(routes: R.Routes)
    ensures Active(routes) <= routes.Keys
  {
  }

  lemma ActiveStep(cfg: Config, w: World, a: Action)
    requires (forall id :: Fine(w, id)) && Enabled(cfg, w, a)
    ensures var v := Apply(cfg, w, a);
            Active(v.routes) - v.early <= Active(w.routes) - w.early + if a.Play? then {a.id} else {}
  {
    hide Fine, R.HostOf;
    var v := Apply(cfg, w, a);
    forall id | id in Active(v.routes) - v.early
      ensures id in Active(w.routes) - w.early + (if a.Play? then {a.id} else {})
    {
      assert Fine(w, id);
      OnlyPlayActivates(cfg, w, a, id);
    }
  }

  /** No step but an admitted Play makes an undisturbed Session active. */
  lemma OnlyPlayActivates(cfg: Config, w: World, a: Action, id: string)
    requires Fine(w, id) && Enabled(cfg, w, a)
    requires IsActive(Apply(cfg, w, a).routes, id) && id !in Apply(cfg, w, a).early
    ensures (IsActive(w.routes, id) && id !in w.early) || (a.Play? && id == a.id)
  {
    hide R.HostOf, R.WellFormed;
  }

  lemma RoutesStayWellFormed(cfg: Config, w: World, a: Action)
    requires R.WellFormed(cfg.domain, w.routes) && Enabled(cfg, w, a)
    ensures R.WellFormed(cfg.domain, Apply(cfg, w, a).routes)
  {
    var v := Apply(cfg, w, a);
    forall id | id in v.routes
      ensures v.routes[id].sessionId == id && v.routes[id].host == R.HostOf(cfg.domain, id)
      ensures v.routes[id].state.Terminal() ==> v.routes[id].ui == R.NO_BACKEND && v.routes[id].apis == []
    {
      RouteStaysWellFormed(cfg, w, a, id);
    }
  }

  lemma RouteStaysWellFormed(cfg: Config, w: World, a: Action, id: string)
    requires Enabled(cfg, w, a) && id in Apply(cfg, w, a).routes
    requires id in w.routes ==>
               && w.routes[id].sessionId == id && w.routes[id].host == R.HostOf(cfg.domain, id)
               && (w.routes[id].state.Terminal() ==> w.routes[id].ui == R.NO_BACKEND && w.routes[id].apis == [])
    ensures var r := Apply(cfg, w, a).routes[id];
            && r.sessionId == id && r.host == R.HostOf(cfg.domain, id)
            && (r.state.Terminal() ==> r.ui == R.NO_BACKEND && r.apis == [])
  {
    hide R.HostOf;
  }

  /** Every step keeps every Session fine, its own and the others. */
  lemma FineIsKept(cfg: Config, w: World, a: Action, id: string)
    requires Fine(w, id) && Enabled(cfg, w, a)
    ensures Fine(Apply(cfg, w, a), id)
  {
    hide Fine, Apply, Enabled;
    match a
    case Admit | Play(_) | Forgo | Launch(_) | Cancel | SourceFails(_) | Stage(_, _, _) | UpBegins(_) =>
      StartingKeepsFine(cfg, w, a, id);
    case UpSucceeds(_) | UpFails(_) | AttachSucceeds(_) | AttachFails(_) | Promote(_) =>
      BootingKeepsFine(cfg, w, a, id);
    case DownSucceeds(_) | DownFails(_) | DropRoute(_) => FailingKeepsFine(cfg, w, a, id);
    case Decide(_) | Settle(_) => EndingKeepsFine(cfg, w, a, id);
    case TickBegins | Linger(_) | Reap(_, _) | TickEnds => ScanningKeepsFine(cfg, w, a, id);
    case ReapDownSucceeds | ReapDownFails | ReapRemove | MarkCrashed => TearingKeepsFine(cfg, w, a, id);
  }

  /** The steps that admit and start a boot. */
  lemma StartingKeepsFine(cfg: Config, w: World, a: Action, id: string)
    requires a.Admit? || a.Play? || a.Forgo? || a.Launch? || a.Cancel? || a.SourceFails? || a.Stage? || a.UpBegins?
    requires Fine(w, id) && Enabled(cfg, w, a)
    ensures Fine(Apply(cfg, w, a), id)
  {
  }

  /** The steps of `compose up` and of attaching the proxy. */
  lemma BootingKeepsFine(cfg: Config, w: World, a: Action, id: string)
    requires a.UpSucceeds? || a.UpFails? || a.AttachSucceeds? || a.AttachFails? || a.Promote?
    requires Fine(w, id) && Enabled(cfg, w, a)
    ensures Fine(Apply(cfg, w, a), id)
  {
  }

  /** The steps that clean up after a failed boot. */
  lemma FailingKeepsFine(cfg: Config, w: World, a: Action, id: string)
    requires a.DownSucceeds? || a.DownFails? || a.DropRoute?
    requires Fine(w, id) && Enabled(cfg, w, a)
    ensures Fine(Apply(cfg, w, a), id)
  {
    hide R.HostOf, R.WellFormed;
  }

  /** The steps that end a failed boot. */
  lemma EndingKeepsFine(cfg: Config, w: World, a: Action, id: string)
    requires a.Decide? || a.Settle?
    requires Fine(w, id) && Enabled(cfg, w, a)
    ensures Fine(Apply(cfg, w, a), id)
  {
    hide R.HostOf, R.WellFormed;
  }

  /** The steps of a tick up to a teardown. */
  lemma ScanningKeepsFine(cfg: Config, w: World, a: Action, id: string)
    requires a.TickBegins? || a.Linger? || a.Reap? || a.TickEnds?
    requires Fine(w, id) && Enabled(cfg, w, a)
    ensures Fine(Apply(cfg, w, a), id)
  {
  }

  /** The steps of a reaper's teardown. */
  lemma TearingKeepsFine(cfg: Config, w: World, a: Action, id: string)
    requires a.ReapDownSucceeds? || a.ReapDownFails? || a.ReapRemove? || a.MarkCrashed?
    requires Fine(w, id) && Enabled(cfg, w, a)
    ensures Fine(Apply(cfg, w, a), id)
  {
    hide R.HostOf, R.WellFormed;
  }

  lemma {:induction false} InvAlongRun(cfg: Config, w: World, actions: seq<Action>)
    requires Inv(cfg, w) && Runs(cfg, w, actions)
    ensures Inv(cfg, After(cfg, w, actions))
    decreases |actions|
  {
    if actions != [] {
      var a := actions[0];
      RoutesStayWellFormed(cfg, w, a);
      forall id ensures Fine(Apply(cfg, w, a), id) { FineIsKept(cfg, w, a, id); }
      CapIsKept(cfg, w, a);
      InvAlongRun(cfg, Apply(cfg, w, a), actions[1..]);
    }
  }

  lemma InvReached(cfg: Config, actions: seq<Action>)
    requires Runs(cfg, START, actions)
    ensures Inv(cfg, After(cfg, START, actions))
  {
    assert Active(START.routes) - START.early == {};
    InvAlongRun(cfg, START, actions);
  }

  // ---- What every run keeps ----

  /** In every interleaving the Sessions that hold a slot, and the Stacks that may be
      running, stay within the cap, but for those the history sets name. */
  lemma SlotsAndStacksWithinCap(cfg: Config, actions: seq<Action>)
    requires cfg.cap > 0 && Runs(cfg, START, actions)
    ensures var w := After(cfg, START, actions);
            && |Active(w.routes) - w.early| <= cfg.cap
            && |w.stacks - w.leaked - w.early| <= cfg.cap
  {
    InvReached(cfg, actions);
    var w := After(cfg, START, actions);
    forall id | id in w.stacks - w.leaked - w.early ensures id in Active(w.routes) - w.early { assert Fine(w, id); }
    SubsetIsNoLarger(w.stacks - w.leaked - w.early, Active(w.routes) - w.early);
  }

  /** A terminal route has no backends and, outside the history sets, no containers; and
      every container outside them sits behind a Booting or Live route. */
  lemma TerminalRoutesAreEmpty(cfg: Config, actions: seq<Action>, id: string)
    requires Runs(cfg, START, actions)
    ensures var w := After(cfg, START, actions);
            && (id in w.routes && w.routes[id].state.Terminal() ==>
                  && w.routes[id].ui == R.NO_BACKEND && w.routes[id].apis == []
                  && (id in w.stacks ==> id in w.leaked + w.early))
            && (id in w.stacks && id !in w.leaked + w.early ==>
                  id in w.routes && !w.routes[id].state.Terminal())
  {
    InvReached(cfg, actions);
    assert Fine(After(cfg, START, actions), id);
  }

  // ---- What the history sets mean, in terms of the steps taken ----

  predicate DownFailed(actions: seq<Action>, id: string) { DownFails(id) in actions }

  /** Somewhere along the run the reaper began to tear id down while its boot was in flight. */
  ghost predicate ReapedInFlight(cfg: Config, w: World, actions: seq<Action>, id: string)
    requires Runs(cfg, w, actions)
    decreases |actions|
  {
    actions != [] && (
      (actions[0].Reap? && actions[0].id == id && id in w.boots)
      || ReapedInFlight(cfg, Apply(cfg, w, actions[0]), actions[1..], id))
  }

  lemma {:induction false} HistoryIsWhatHappened(cfg: Config, w: World, actions: seq<Action>, id: string)
    requires Runs(cfg, w, actions)
    ensures id in After(cfg, w, actions).leaked <==> id in w.leaked || DownFailed(actions, id)
    ensures id in After(cfg, w, actions).early <==> id in w.early || ReapedInFlight(cfg, w, actions, id)
    decreases |actions|
  {
    if actions != [] {
      HistoryIsWhatHappened(cfg, Apply(cfg, w, actions[0]), actions[1..], id);
      assert actions == [actions[0]] + actions[1..];
    }
  }

  /** The two promises of the lifecycle, with the hypotheses in terms of steps: when the
      reaper tears no Session down mid-boot the cap bounds the active Sessions, and when
      no failed boot also fails to bring its containers down, it bounds the Stacks and
      every Stack is visible to the reaper. */
  lemma LifecycleTheorem(cfg: Config, actions: seq<Action>)
    requires cfg.cap > 0 && Runs(cfg, START, actions)
    requires forall id :: !ReapedInFlight(cfg, START, actions, id)
    ensures var w := After(cfg, START, actions);
            && |Active(w.routes)| <= cfg.cap
            && ((forall id :: !DownFailed(actions, id)) ==> w.stacks <= Active(w.routes) && |w.stacks| <= cfg.cap)
  {
    var w := After(cfg, START, actions);
    SlotsAndStacksWithinCap(cfg, actions);
    forall id ensures id !in w.early && (id in w.leaked <==> DownFailed(actions, id)) {
      HistoryIsWhatHappened(cfg, START, actions, id);
    }
    assert w.early == {};
    assert Active(w.routes) - w.early == Active(w.routes);
    if forall id :: !DownFailed(actions, id) {
      assert w.leaked == {};
      assert w.stacks - w.leaked - w.early == w.stacks;
      forall id | id in w.stacks ensures id in Active(w.routes) { TerminalRoutesAreEmpty(cfg, actions, id); }
    }
  }

  // ---- The hypotheses cannot be dropped ----

  /** Containers that survive their boot's failure, seen by nobody. */
  ghost predicate Stranded(w: World, id: string)
  {
    && id in w.minted && id in w.stacks && id !in w.boots && id !in Active(w.routes)
    && !(w.reaper.Downing? && w.reaper.id == id)
    && (!w.reaper.Resting? && id in w.reaper.todo ==> w.reaper.todo[id].Terminal())
  }

  /** Stranded containers stay for good: the reaper tears no terminal Session down. */
  lemma {:induction false} StrandedForever(cfg: Config, w: World, actions: seq<Action>, id: string)
    requires Stranded(w, id) && Runs(cfg, w, actions)
    ensures Stranded(After(cfg, w, actions), id)
    decreases |actions|
  {
    if actions != [] {
      StrandedStep(cfg, w, actions[0], id);
      StrandedForever(cfg, Apply(cfg, w, actions[0]), actions[1..], id);
    }
  }

  lemma StrandedStep(cfg: Config, w: World, a: Action, id: string)
    requires Stranded(w, id) && Enabled(cfg, w, a)
    ensures Stranded(Apply(cfg, w, a), id)
  {
    hide R.HostOf;
  }

  /** A failed `compose down` on the boot path, and the end of that boot. */
  function Ended(cfg: Config, w: World, id: string): World
    requires At(w, id, Tearing)
  {
    Apply(cfg, Apply(cfg, Apply(cfg, w, DownFails(id)), Decide(id)), Settle(id))
  }

  /** Whatever happened before, a boot whose `compose down` fails and which then settles
      strands its containers: after that no run ever stops them. The condition is exact:
      outside the history sets TerminalRoutesAreEmpty leaves no container behind. */
  lemma FailedDownStrands(cfg: Config, before: seq<Action>, w: World, id: string)
    requires Runs(cfg, START, before) && w == After(cfg, START, before)
    requires At(w, id, Tearing) && id in w.stacks && id !in w.early && (w.reaper.Resting? || id !in w.reaper.todo)
    ensures forall later ::
              Runs(cfg, Ended(cfg, w, id), later) ==> id in After(cfg, Ended(cfg, w, id), later).stacks
  {
    InvReached(cfg, before);
    assert Fine(w, id);
    SettlingStrands(cfg, w, id);
    forall later | Runs(cfg, Ended(cfg, w, id), later) ensures id in After(cfg, Ended(cfg, w, id), later).stacks {
      StrandedForever(cfg, Ended(cfg, w, id), later, id);
    }
  }

  lemma SettlingStrands(cfg: Config, w: World, id: string)
    requires At(w, id, Tearing) && id in w.stacks && id !in w.early && id in w.minted && Fine(w, id)
    requires w.reaper.Resting? || id !in w.reaper.todo
    ensures Stranded(Ended(cfg, w, id), id)
  {
  }

  lemma RunCons(cfg: Config, w: World, a: Action, rest: seq<Action>)
    requires Enabled(cfg, w, a) && Runs(cfg, Apply(cfg, w, a), rest)
    ensures Runs(cfg, w, [a] + rest) && After(cfg, w, [a] + rest) == After(cfg, Apply(cfg, w, a), rest)
  {
    assert ([a] + rest)[1..] == rest;
  }

  lemma {:induction false} RunAppend(cfg: Config, w: World, first: seq<Action>, second: seq<Action>)
    requires Runs(cfg, w, first) && Runs(cfg, After(cfg, w, first), second)
    ensures Runs(cfg, w, first + second)
    ensures After(cfg, w, first + second) == After(cfg, After(cfg, w, first), second)
    decreases |first|
  {
    if first == [] {
      assert first + second == second;
    } else {
      RunAppend(cfg, Apply(cfg, w, first[0]), first[1..], second);
      assert first + second == [first[0]] + (first[1..] + second);
      RunCons(cfg, w, first[0], first[1..] + second);
    }
  }

  lemma RunThen(cfg: Config, w: World, actions: seq<Action>, a: Action)
    requires Runs(cfg, w, actions) && Enabled(cfg, After(cfg, w, actions), a)
    ensures Runs(cfg, w, actions + [a])
    ensures After(cfg, w, actions + [a]) == Apply(cfg, After(cfg, w, actions), a)
  {
    RunCons(cfg, After(cfg, w, actions), a, []);
    assert [a] + [] == [a];
    RunAppend(cfg, w, actions, [a]);
  }
}
