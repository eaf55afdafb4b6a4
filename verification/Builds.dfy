/** Publish builds over time (internal/project/publisher.go, internal/project/project.go:260-310,
    internal/store/projects.go): handlers that read a Project and then start its build,
    builds in flight, the recovery sweep, crashes and restarts, with a clock. */
module Builds {
  import opened Text
  import opened Manifest
  import opened Published
  import P = Projects

  /** perService caps one service's build; grace is what settling may take beyond that. */
  datatype Timing = Timing(perService: nat, grace: nat)

  const MINUTE := 60_000_000_000

  /** How far apart sweeps are scheduled. */
  function Interval(t: Timing): int { if t.grace < MINUTE then MINUTE else t.grace }

  /** A publish request: it has read the Project and not started yet, or its build runs. */
  datatype Flight =
    | Reading(owner: int, id: string, manifest: Manifest)
    | Running(owner: int, id: string, manifest: Manifest, startedAt: int)

  /** What a publish published: the manifest its build read, and by service the Dockerfile its
      image was made with, which is the manifest's unless the cache had one. */
  datatype Build = Build(manifest: Manifest, files: map<string, string>)

  /** It is what this manifest declares. */
  predicate IsOf(b: Build, m: Manifest) { b.manifest == m && b.files == Dockerfiles(m) }

  /** The last four fields are history. edited are the flights whose Project's manifest changed
      since they read it. loosened are the Projects whose row left 'building' under a running
      build of theirs, by an edit or by a publish that was recorded but reported as failed;
      shortened those with a running build of more services than its row had at its start.
      Both are forgotten once no build of the Project runs. outdated are the Projects whose
      latest publish was not of what the row's manifest declares. */
  datatype Machine = Machine(
    rows: P.Rows, now: int, flights: map<nat, Flight>, up: bool, lastSweep: int, built: map<string, Build>,
    edited: set<nat>, loosened: set<string>, shortened: set<string>, outdated: set<string>)

  const START := Machine(map[], 0, map[], true, 0, map[], {}, {}, {}, {})

  datatype Action =
    | Advance(dt: int)
    | Edit(op: P.Op)
    | Read(f: nat, owner: int, id: string)
    | GiveUp(f: nat)
    | Begin(f: nat)
    | Succeed(f: nat, commit: string, serviceCommits: Option<P.Commits>, files: map<string, string>)
    | Doubt(f: nat, commit: string, serviceCommits: Option<P.Commits>, files: map<string, string>)
    | Fail(f: nat, error: string)
    | Lose(f: nat)
    | Sweep
    | Crash
    | Restart

  /** When a build must have settled at the latest, as the publish timeout and grace have it. */
  function Deadline(t: Timing, f: Flight): int
    requires f.Running?
  {
    f.startedAt + P.Window(f.manifest, t.perService, t.grace)
  }

  /** Time passes only while every build is within its deadline. A sweep may be late or fail. */
  predicate MayAdvance(t: Timing, m: Machine, dt: int)
  {
    && dt > 0
    && forall f :: f in m.flights && m.flights[f].Running? ==> m.now + dt <= Deadline(t, m.flights[f])
  }

  predicate Enabled(t: Timing, m: Machine, a: Action)
  {
    match a
    case Advance(dt) => MayAdvance(t, m, dt)
    case Edit(op) => m.up && (op.Create? || op.Update? || op.SetSlug?) && P.Admissible(m.rows, op)
    case Read(f, owner, id) => m.up && f !in m.flights && P.Owns(m.rows, owner, id)
    case GiveUp(f) => f in m.flights && m.flights[f].Reading?
    case Begin(f) => f in m.flights && m.flights[f].Reading?
    case Succeed(f, _, _, _) => f in m.flights && m.flights[f].Running?
    case Doubt(f, _, _, _) => f in m.flights && m.flights[f].Running?
    case Fail(f, _) => f in m.flights && m.flights[f].Running?
    case Lose(f) => f in m.flights && m.flights[f].Running?
    case Sweep => m.up
    case Crash => m.up
    case Restart => !m.up
  }

  /** Build f of the Project runs. */
  predicate Live(m: Machine, f: nat, key: string)
  {
    f in m.flights && m.flights[f].Running? && P.Key(m.flights[f].id) == key
  }

  predicate HasLive(m: Machine, key: string) { exists f :: f in m.flights && Live(m, f, key) }

  /** Histories of Projects without a running build are forgotten. */
  function Forget(m: Machine): Machine
  {
    m.(edited := (set f | f in m.edited && f in m.flights),
       loosened := (set k | k in m.loosened && HasLive(m, k)),
       shortened := (set k | k in m.shortened && HasLive(m, k)))
  }

  function Gone(m: Machine, f: nat): Machine { Forget(m.(flights := m.flights - {f})) }

  function Edited(m: Machine, op: P.Op): Machine
  {
    var v := m.(rows := P.Step(m.rows, op));
    if !op.Update? || !Redrafts(m.rows, op, P.Key(op.id)) then v
    else
      var key := P.Key(op.id);
      v.(edited := m.edited + (set f | f in m.flights && P.Key(m.flights[f].id) == key),
         loosened := if HasLive(m, key) then m.loosened + {key} else m.loosened,
         outdated := m.outdated - {key})
  }

  /** The publish statement, and what the row is then known to be. */
  function Recorded(m: Machine, f: Flight, commit: string, svc: Option<P.Commits>, files: map<string, string>): Machine
  {
    var key, build := P.Key(f.id), Build(f.manifest, files);
    m.(rows := P.Step(m.rows, P.Publish(f.owner, f.id, commit, svc)),
       built := m.built[key := build],
       outdated := if key in m.rows && IsOf(build, m.rows[key].manifest) then m.outdated - {key}
         else m.outdated + {key})
  }

  function Begun(m: Machine, f: nat): Machine
    requires f in m.flights
  {
    var r := m.flights[f];
    var op := P.Start(r.owner, r.id, m.now);
    if P.Failure(m.rows, op).Some? then Gone(m, f)
    else
      var key := P.Key(r.id);
      m.(rows := P.Step(m.rows, op), flights := m.flights[f := Running(r.owner, r.id, r.manifest, m.now)],
         shortened := if |m.rows[key].manifest.services| < |r.manifest.services| then m.shortened + {key}
           else m.shortened)
  }

  function Swept(t: Timing, m: Machine): Machine
  {
    m.(rows := P.Step(m.rows, P.Reclaim(t.perService, t.grace, m.now)), lastSweep := m.now)
  }

  function Apply(t: Timing, m: Machine, a: Action): Machine
    requires Enabled(t, m, a)
  {
    match a
    case Advance(dt) => m.(now := m.now + dt)
    case Edit(op) => Edited(m, op)
    case Read(f, owner, id) => m.(flights := m.flights[f := Reading(owner, id, m.rows[P.Key(id)].manifest)])
    case GiveUp(f) => Gone(m, f)
    case Begin(f) => Begun(m, f)
    case Succeed(f, commit, svc, files) => Gone(Recorded(m, m.flights[f], commit, svc, files), f)
    case Doubt(f, commit, svc, files) =>
      Recorded(m, m.flights[f], commit, svc, files).(loosened := m.loosened + {P.Key(m.flights[f].id)})
    case Fail(f, error) =>
      Gone(m.(rows := P.Step(m.rows, P.MarkFailed(m.flights[f].owner, m.flights[f].id, error))), f)
    case Lose(f) => Gone(m, f)
    case Sweep => Swept(t, m)
    case Crash => Forget(m.(up := false, flights := map[]))
    case Restart => m.(up := true)
  }

  predicate Runs(t: Timing, m: Machine, actions: seq<Action>)
    decreases |actions|
  {
    actions == [] || (Enabled(t, m, actions[0]) && Runs(t, Apply(t, m, actions[0]), actions[1..]))
  }

  function After(t: Timing, m: Machine, actions: seq<Action>): Machine
    requires Runs(t, m, actions)
    decreases |actions|
  {
    if actions == [] then m else After(t, Apply(t, m, actions[0]), actions[1..])
  }

  lemma {:induction false} RunThen(t: Timing, m: Machine, actions: seq<Action>, more: seq<Action>)
    requires Runs(t, m, actions) && Runs(t, After(t, m, actions), more)
    ensures Runs(t, m, actions + more) && After(t, m, actions + more) == After(t, After(t, m, actions), more)
    decreases |actions|
  {
    if actions == [] {
      assert [] + more == more;
    } else {
      RunThen(t, Apply(t, m, actions[0]), actions[1..], more);
      assert (actions + more)[1..] == actions[1..] + more && (actions + more)[0] == actions[0];
    }
  }

  lemma OneStep(t: Timing, m: Machine, actions: seq<Action>) returns (v: Machine)
    requires |actions| <= 1 && (actions != [] ==> Enabled(t, m, actions[0]))
    ensures Runs(t, m, actions) && v == After(t, m, actions)
    ensures v == if actions == [] then m else Apply(t, m, actions[0])
  {
    v := m;
    if actions != [] {
      assert actions[1..] == [];
      v := Apply(t, m, actions[0]);
    }
  }

  // ---- The invariant ----

  /** Nothing took the row from under the Project's builds, or could. */
  predicate Sound(m: Machine, key: string) { key !in m.loosened && key !in m.shortened }

  /** What a flight can rely on: its Project is its Owner's; unless edited, the row still has
      the manifest it read; and the row of a running build, unless taken from it, is 'building'
      since the build began, with at least as many services. */
  ghost predicate Holds(m: Machine, f: nat)
    requires f in m.flights
  {
    var r := m.flights[f];
    && P.Owns(m.rows, r.owner, r.id)
    && var row := m.rows[P.Key(r.id)];
       && (f !in m.edited ==> row.manifest == r.manifest)
       && (r.Running? && Sound(m, P.Key(r.id)) ==>
             && row.buildState == P.Building && row.startedAt == Some(r.startedAt)
             && |row.manifest.services| >= |r.manifest.services|)
  }

  ghost predicate FlightsHold(m: Machine)
  {
    && (forall f :: f in m.flights ==> Holds(m, f))
    && (m.flights != map[] ==> m.up) && m.edited <= m.flights.Keys
  }

  ghost predicate OneEach(m: Machine)
  {
    forall f, g, key :: Live(m, f, key) && Live(m, g, key) && Sound(m, key) ==> f == g
  }

  /** A history is kept only while a build of the Project runs. */
  ghost predicate HistoriesEnd(m: Machine)
  {
    forall key :: key in m.loosened || key in m.shortened ==> HasLive(m, key)
  }

  ghost predicate OnTime(t: Timing, m: Machine)
  {
    && (forall f :: f in m.flights && m.flights[f].Running? ==> m.now <= Deadline(t, m.flights[f]))
    && m.lastSweep <= m.now
  }

  /** A building row's start is known and was not stale at the time of the last sweep. */
  predicate Clean(t: Timing, row: P.Row, lastSweep: int)
  {
    row.buildState == P.Building ==>
      row.startedAt.Some? && lastSweep <= row.startedAt.value + P.Window(row.manifest, t.perService, t.grace)
  }

  /** The last sweep left no building row behind that was stale then. */
  ghost predicate SweptClean(t: Timing, m: Machine)
  {
    forall k :: k in m.rows ==> Clean(t, m.rows[k], m.lastSweep)
  }

  ghost predicate BuiltFromRow(m: Machine)
  {
    forall k :: k in m.rows && m.rows[k].published ==>
      k in m.built && (IsOf(m.built[k], m.rows[k].manifest) <==> k !in m.outdated)
  }

  ghost predicate Inv(t: Timing, m: Machine)
  {
    FlightsHold(m) && OneEach(m) && HistoriesEnd(m) && OnTime(t, m) && SweptClean(t, m) && BuiltFromRow(m)
  }

  /** A build the row is sound for is within the row's window as long as it is within its own. */
  lemma LiveIsNotStale(t: Timing, m: Machine, f: nat)
    requires FlightsHold(m) && OnTime(t, m) && f in m.flights && m.flights[f].Running?
             && Sound(m, P.Key(m.flights[f].id))
    ensures P.Key(m.flights[f].id) in m.rows
    ensures !P.Stale(m.rows[P.Key(m.flights[f].id)], t.perService, t.grace, m.now)
  {
    assert Holds(m, f);
    var key := P.Key(m.flights[f].id);
    MoreServicesLongerWindow(t, m.flights[f].manifest, m.rows[key].manifest);
  }

  lemma MoreServicesLongerWindow(t: Timing, a: Manifest, b: Manifest)
    requires |a.services| <= |b.services|
    ensures P.Window(a, t.perService, t.grace) <= P.Window(b, t.perService, t.grace)
  {
    var n, k := |a.services| + 1, |b.services| - |a.services|;
    assert (n + k) * t.perService == n * t.perService + k * t.perService;
    assert k * t.perService >= 0;
  }

  // Each step keeps what the flights rely on.

  /** Forgetting forgets nothing of a Project with a running build. */
  lemma ForgetKeeps(m: Machine, f: nat)
    requires f in m.flights && Holds(m, f)
    ensures f in Forget(m).flights && Holds(Forget(m), f)
  {
    var key := P.Key(m.flights[f].id);
    if m.flights[f].Running? {
      assert Live(m, f, key);
    }
  }

  lemma GoneKeeps(m: Machine, f: nat, g: nat)
    requires f in m.flights && f != g && Holds(m, f)
    ensures f in Gone(m, g).flights && Holds(Gone(m, g), f)
  {
    ForgetKeeps(m.(flights := m.flights - {g}), f);
  }

  lemma EditKeeps(m: Machine, op: P.Op, f: nat)
    requires f in m.flights && Holds(m, f) && (op.Create? || op.Update? || op.SetSlug?) && P.Admissible(m.rows, op)
    ensures f in Edited(m, op).flights && Holds(Edited(m, op), f)
  {
    if m.flights[f].Running? {
      assert Live(m, f, P.Key(m.flights[f].id));
    }
  }

  /** A settling statement of build g: no other build of that Project had a sound row. */
  lemma SettlingKeeps(m: Machine, op: P.Op, f: nat, g: nat)
    requires f in m.flights && g in m.flights && f != g && m.flights[g].Running? && OneEach(m) && Holds(m, f)
    requires (op.Publish? || op.MarkFailed?) && op.id == m.flights[g].id
    ensures Holds(m.(rows := P.Step(m.rows, op)), f)
  {
    var key := P.Key(m.flights[g].id);
    assert Live(m, g, key);
    if m.flights[f].Running? && P.Key(m.flights[f].id) == key {
      assert Live(m, f, key);
    }
  }

  lemma StartKeeps(m: Machine, f: nat, g: nat)
    requires f in m.flights && g in m.flights && m.flights[g].Reading? && f != g && Holds(m, f)
    ensures f in Begun(m, g).flights && Holds(Begun(m, g), f)
  {
    if P.Failure(m.rows, P.Start(m.flights[g].owner, m.flights[g].id, m.now)).Some? {
      GoneKeeps(m, f, g);
    }
  }

  lemma Started(m: Machine, f: nat)
    requires f in m.flights && m.flights[f].Reading? && Holds(m, f)
    ensures f in Begun(m, f).flights ==> Holds(Begun(m, f), f)
  {
  }

  lemma SweepKeeps(t: Timing, m: Machine, f: nat)
    requires FlightsHold(m) && OnTime(t, m) && f in m.flights
    ensures Holds(Swept(t, m), f)
  {
    assert Holds(m, f);
    if m.flights[f].Running? && Sound(m, P.Key(m.flights[f].id)) {
      LiveIsNotStale(t, m, f);
    }
  }

  lemma FlightIsKept(t: Timing, m: Machine, a: Action, f: nat)
    requires FlightsHold(m) && OneEach(m) && OnTime(t, m) && Enabled(t, m, a) && f in Apply(t, m, a).flights
    ensures Holds(Apply(t, m, a), f)
  {
    if f in m.flights {
      assert Holds(m, f);
    }
    hide P.Step, P.Owns, P.Key, OneEach;
    match a
    case Edit(op) => EditKeeps(m, op, f);
    case Read(g, owner, id) => if f == g { JustRead(t, m, a); } else { ReadKeeps(t, m, a, f); }
    case GiveUp(g) => GoneKeeps(m, f, g);
    case Begin(g) => if f == g { Started(m, f); } else { StartKeeps(m, f, g); }
    case Succeed(g, commit, svc, files) =>
      RecordedKeeps(m, f, g, commit, svc, files);
      GoneKeeps(Recorded(m, m.flights[g], commit, svc, files), f, g);
    case Doubt(g, commit, svc, files) => DoubtKeeps(t, m, a, f);
    case Fail(g, error) => FailKeeps(m, f, g, error);
    case Lose(g) => GoneKeeps(m, f, g);
    case Sweep => SweepKeeps(t, m, f);
    case _ =>
  }

  lemma JustRead(t: Timing, m: Machine, a: Action)
    requires a.Read? && Enabled(t, m, a) && m.edited <= m.flights.Keys
    ensures Holds(Apply(t, m, a), a.f)
  {
  }

  lemma ReadKeeps(t: Timing, m: Machine, a: Action, f: nat)
    requires a.Read? && Enabled(t, m, a) && f in m.flights && f != a.f && Holds(m, f)
    ensures Holds(Apply(t, m, a), f)
  {
  }

  lemma RecordedKeeps(m: Machine, f: nat, g: nat, commit: string, svc: Option<P.Commits>, files: map<string, string>)
    requires f in m.flights && g in m.flights && f != g && m.flights[g].Running? && OneEach(m) && Holds(m, f)
    ensures Holds(Recorded(m, m.flights[g], commit, svc, files), f)
  {
    SettlingKeeps(m, P.Publish(m.flights[g].owner, m.flights[g].id, commit, svc), f, g);
  }

  lemma DoubtKeeps(t: Timing, m: Machine, a: Action, f: nat)
    requires a.Doubt? && Enabled(t, m, a) && f in m.flights && OneEach(m) && Holds(m, f)
    ensures Holds(Apply(t, m, a), f)
  {
    if f != a.f {
      RecordedKeeps(m, f, a.f, a.commit, a.serviceCommits, a.files);
    }
  }

  lemma FailKeeps(m: Machine, f: nat, g: nat, error: string)
    requires f in m.flights && g in m.flights && f != g && m.flights[g].Running? && OneEach(m) && Holds(m, f)
    ensures var v := Gone(m.(rows := P.Step(m.rows, P.MarkFailed(m.flights[g].owner, m.flights[g].id, error))), g);
            f in v.flights && Holds(v, f)
  {
    var op := P.MarkFailed(m.flights[g].owner, m.flights[g].id, error);
    SettlingKeeps(m, op, f, g);
    GoneKeeps(m.(rows := P.Step(m.rows, op)), f, g);
  }

  lemma FlightsAreKept(t: Timing, m: Machine, a: Action)
    requires Inv(t, m) && Enabled(t, m, a)
    ensures FlightsHold(Apply(t, m, a))
  {
    var v := Apply(t, m, a);
    forall f | f in v.flights ensures Holds(v, f) {
      FlightIsKept(t, m, a, f);
    }
    FlightsNeedTheProcess(t, m, a);
    hide Holds, Apply;
  }

  lemma FlightsNeedTheProcess(t: Timing, m: Machine, a: Action)
    requires (m.flights != map[] ==> m.up) && m.edited <= m.flights.Keys && Enabled(t, m, a)
    ensures (Apply(t, m, a).flights != map[] ==> Apply(t, m, a).up)
            && Apply(t, m, a).edited <= Apply(t, m, a).flights.Keys
  {
  }

  lemma OneEachIsKept(t: Timing, m: Machine, a: Action)
    requires Inv(t, m) && Enabled(t, m, a)
    ensures OneEach(Apply(t, m, a))
  {
    var v := Apply(t, m, a);
    forall f, g, key | Live(v, f, key) && Live(v, g, key) && Sound(v, key) ensures f == g {
      OneOfTwo(t, m, a, f, g, key);
    }
  }

  lemma OneOfTwo(t: Timing, m: Machine, a: Action, f: nat, g: nat, key: string)
    requires FlightsHold(m) && OneEach(m) && Enabled(t, m, a)
    requires var v := Apply(t, m, a); Live(v, f, key) && Live(v, g, key) && Sound(v, key)
    ensures f == g
  {
    LiveBefore(t, m, a, f, key);
    LiveBefore(t, m, a, g, key);
    SoundBefore(t, m, a, f, key);
    if a.Begin? && (f == a.f || g == a.f) && f != g {
      var other := if f == a.f then g else f;
      assert Holds(m, other) && Holds(m, a.f);
      StartRefused(m, a.f, key);
    }
    hide Apply, Sound;
  }

  /** A build that runs after a step ran before it, unless the step began it. */
  lemma LiveBefore(t: Timing, m: Machine, a: Action, f: nat, key: string)
    requires Enabled(t, m, a) && Live(Apply(t, m, a), f, key)
    ensures Live(m, f, key) || (a.Begin? && a.f == f && P.Key(m.flights[f].id) == key)
  {
  }

  /** A Project sound after a step, with a build running, was sound before it. */
  lemma SoundBefore(t: Timing, m: Machine, a: Action, f: nat, key: string)
    requires Enabled(t, m, a) && Live(Apply(t, m, a), f, key) && Sound(Apply(t, m, a), key)
    ensures Sound(m, key)
  {
  }

  lemma StartRefused(m: Machine, f: nat, key: string)
    requires f in m.flights && m.flights[f].Reading? && Holds(m, f) && P.Key(m.flights[f].id) == key
    requires m.rows[key].buildState == P.Building
    ensures f !in Begun(m, f).flights
  {
  }

  lemma HistoriesAreKept(t: Timing, m: Machine, a: Action)
    requires HistoriesEnd(m) && Enabled(t, m, a)
    ensures HistoriesEnd(Apply(t, m, a))
  {
    var v := Apply(t, m, a);
    forall key | key in v.loosened || key in v.shortened ensures HasLive(v, key) {
      HistoryIsKept(t, m, a, key);
    }
  }

  lemma HistoryIsKept(t: Timing, m: Machine, a: Action, key: string)
    requires HistoriesEnd(m) && Enabled(t, m, a)
    requires key in Apply(t, m, a).loosened || key in Apply(t, m, a).shortened
    ensures HasLive(Apply(t, m, a), key)
  {
    var v := Apply(t, m, a);
    if (key in m.loosened || key in m.shortened) && !a.GiveUp? && !a.Succeed? && !a.Fail? && !a.Lose? && !a.Crash? {
      var f :| f in m.flights && Live(m, f, key);
      assert f in v.flights ==> Live(v, f, key);
    } else if a.Begin? {
      assert a.f in v.flights ==> v.flights[a.f].Running? && Live(v, a.f, P.Key(m.flights[a.f].id));
    } else if a.Doubt? {
      assert Live(v, a.f, P.Key(m.flights[a.f].id));
    } else if a.Edit? && key !in m.loosened {
      var f :| f in m.flights && Live(m, f, key);
      assert Live(v, f, key);
    }
  }

  lemma TimeIsKept(t: Timing, m: Machine, a: Action)
    requires Inv(t, m) && Enabled(t, m, a)
    ensures OnTime(t, Apply(t, m, a))
  {
    hide FlightsHold, OneEach, HistoriesEnd, SweptClean, BuiltFromRow;
    var v := Apply(t, m, a);
    ClockMoves(t, m, a);
    forall f | f in v.flights && v.flights[f].Running? ensures v.now <= Deadline(t, v.flights[f]) {
      RunningBefore(t, m, a, f);
      if a.Begin? && a.f == f {
        WindowIsNatural(t, v.flights[f].manifest);
      }
    }
    hide Apply, Enabled;
  }

  lemma ClockMoves(t: Timing, m: Machine, a: Action)
    requires Enabled(t, m, a)
    ensures var v := Apply(t, m, a);
            && v.now == (if a.Advance? then m.now + a.dt else m.now)
            && v.lastSweep == (if a.Sweep? then m.now else m.lastSweep)
            && (v.up ==> m.up || a.Restart?)
  {
  }

  lemma RunningBefore(t: Timing, m: Machine, a: Action, f: nat)
    requires Enabled(t, m, a) && f in Apply(t, m, a).flights && Apply(t, m, a).flights[f].Running?
    ensures if a.Begin? && a.f == f && m.flights[f].Reading? then Apply(t, m, a).flights[f].startedAt == m.now
            else f in m.flights && m.flights[f] == Apply(t, m, a).flights[f]
  {
  }

  /** The statement a step makes, if any. */
  function Statement(t: Timing, m: Machine, a: Action): Option<P.Op>
    requires Enabled(t, m, a)
  {
    match a
    case Edit(op) => Some(op)
    case Begin(f) => Some(P.Start(m.flights[f].owner, m.flights[f].id, m.now))
    case Succeed(f, commit, svc, _) => Some(P.Publish(m.flights[f].owner, m.flights[f].id, commit, svc))
    case Doubt(f, commit, svc, _) => Some(P.Publish(m.flights[f].owner, m.flights[f].id, commit, svc))
    case Fail(f, error) => Some(P.MarkFailed(m.flights[f].owner, m.flights[f].id, error))
    case Sweep => Some(P.Reclaim(t.perService, t.grace, m.now))
    case _ => None
  }

  /** Rows change by statements only. */
  lemma OneStatement(t: Timing, m: Machine, a: Action)
    requires Enabled(t, m, a)
    ensures Apply(t, m, a).rows == match Statement(t, m, a) case None => m.rows case Some(op) => P.Step(m.rows, op)
  {
  }

  lemma CleanIsKept(t: Timing, m: Machine, a: Action)
    requires Inv(t, m) && Enabled(t, m, a)
    ensures SweptClean(t, Apply(t, m, a))
  {
    OneStatement(t, m, a);
    ClockMoves(t, m, a);
    var v := Apply(t, m, a);
    hide Apply, Enabled, FlightsHold, OneEach, HistoriesEnd, BuiltFromRow;
    forall k | k in v.rows ensures Clean(t, v.rows[k], v.lastSweep) {
      CleanByStatement(t, m, Statement(t, m, a), k);
    }
  }

  lemma CleanByStatement(t: Timing, m: Machine, op: Option<P.Op>, k: string)
    requires SweptClean(t, m) && m.lastSweep <= m.now
    requires op.Some? && op.value.Reclaim? ==> op.value == P.Reclaim(t.perService, t.grace, m.now)
    requires op.Some? && op.value.Start? ==> op.value.now == m.now
    ensures var rows := if op.None? then m.rows else P.Step(m.rows, op.value);
            k in rows ==> Clean(t, rows[k], if op.Some? && op.value.Reclaim? then m.now else m.lastSweep)
  {
    assert k in m.rows ==> Clean(t, m.rows[k], m.lastSweep);
    if op.Some? && op.value.Start? && P.Owns(m.rows, op.value.owner, op.value.id) {
      WindowIsNatural(t, m.rows[P.Key(op.value.id)].manifest);
    }
  }

  lemma WindowIsNatural(t: Timing, m: Manifest)
    ensures P.Window(m, t.perService, t.grace) >= 0
  {
  }

  lemma BuiltIsKept(t: Timing, m: Machine, a: Action)
    requires Inv(t, m) && Enabled(t, m, a)
    ensures BuiltFromRow(Apply(t, m, a))
  {
    hide FlightsHold, OneEach, HistoriesEnd, SweptClean, OnTime;
    if a.Succeed? || a.Doubt? {
      BuiltByRecord(m, m.flights[a.f], a.commit, a.serviceCommits, a.files);
    } else {
      OneStatement(t, m, a);
      BuiltMoves(t, m, a);
      var v := Apply(t, m, a);
      hide Apply, Enabled;
      forall k | k in v.rows && v.rows[k].published
        ensures k in v.built && (IsOf(v.built[k], v.rows[k].manifest) <==> k !in v.outdated)
      {
        PublishedBefore(m, Statement(t, m, a), k);
      }
    }
  }

  lemma BuiltByRecord(m: Machine, r: Flight, commit: string, svc: Option<P.Commits>, files: map<string, string>)
    requires BuiltFromRow(m)
    ensures BuiltFromRow(Recorded(m, r, commit, svc, files))
  {
    hide Dockerfiles;
  }

  lemma BuiltMoves(t: Timing, m: Machine, a: Action)
    requires Enabled(t, m, a) && !a.Succeed? && !a.Doubt?
    ensures Apply(t, m, a).built == m.built
    ensures Apply(t, m, a).outdated ==
              if a.Edit? && a.op.Update? && Redrafts(m.rows, a.op, P.Key(a.op.id)) then m.outdated - {P.Key(a.op.id)}
              else m.outdated
  {
  }

  /** Only a publish makes a row a published one, and only a redraft touches its manifest. */
  lemma PublishedBefore(m: Machine, op: Option<P.Op>, k: string)
    requires op.Some? ==> !op.value.Publish?
    ensures var rows := if op.None? then m.rows else P.Step(m.rows, op.value);
            k in rows && rows[k].published ==>
              && k in m.rows && m.rows[k].published && rows[k].manifest == m.rows[k].manifest
              && !(op.Some? && op.value.Update? && Redrafts(m.rows, op.value, k))
  {
  }

  lemma {:induction false} InvAlongRun(t: Timing, m: Machine, actions: seq<Action>)
    requires Inv(t, m) && Runs(t, m, actions)
    ensures Inv(t, After(t, m, actions))
    decreases |actions|
  {
    if actions != [] {
      FlightsAreKept(t, m, actions[0]);
      OneEachIsKept(t, m, actions[0]);
      HistoriesAreKept(t, m, actions[0]);
      TimeIsKept(t, m, actions[0]);
      CleanIsKept(t, m, actions[0]);
      BuiltIsKept(t, m, actions[0]);
      InvAlongRun(t, Apply(t, m, actions[0]), actions[1..]);
    }
  }

  lemma InvReached(t: Timing, actions: seq<Action>)
    requires Runs(t, START, actions)
    ensures Inv(t, After(t, START, actions))
  {
    InvAlongRun(t, START, actions);
  }

  // ---- What every run keeps ----

  /** Mutual exclusion: while none of a Project's running builds had its row taken from it, and
      none has more services than its row, there is at most one, its row is 'building' for it,
      and no sweep reclaims it. Once no build of the Project runs, whatever befell it before is
      forgotten. */
  lemma OneBuildAtATime(t: Timing, actions: seq<Action>, f: nat, g: nat, key: string)
    requires Runs(t, START, actions)
    requires var m := After(t, START, actions); Live(m, f, key) && Live(m, g, key) && Sound(m, key)
    ensures var m := After(t, START, actions);
            && f == g && key in m.rows && m.rows[key].buildState == P.Building
            && m.rows[key].startedAt == Some(m.flights[f].startedAt)
            && Swept(t, m).rows[key] == m.rows[key]
  {
    InvReached(t, actions);
    var m := After(t, START, actions);
    assert Holds(m, f);
    LiveIsNotStale(t, m, f);
  }

  lemma IdleProjectsAreSound(t: Timing, actions: seq<Action>, key: string)
    requires Runs(t, START, actions) && !HasLive(After(t, START, actions), key)
    ensures Sound(After(t, START, actions), key)
  {
    InvReached(t, actions);
  }

  /** Bounded recovery: a Project still 'building' started no longer than its own window before
      the last sweep that worked, whatever crashed, was cancelled or was edited; so with the
      sweeps on schedule it stays 'building' no longer than its window and one interval. */
  lemma RecoveredInTime(t: Timing, actions: seq<Action>, key: string)
    requires Runs(t, START, actions)
    requires var m := After(t, START, actions); key in m.rows && m.rows[key].buildState == P.Building
    ensures var m := After(t, START, actions);
            var window := (|m.rows[key].manifest.services| + 1) * t.perService + t.grace;
            && m.rows[key].startedAt.Some? && m.lastSweep <= m.rows[key].startedAt.value + window
            && var every := if t.grace > 60_000_000_000 then t.grace else 60_000_000_000;
               (m.now <= m.lastSweep + every ==> m.now <= m.rows[key].startedAt.value + window + every)
  {
    InvReached(t, actions);
    assert Clean(t, After(t, START, actions).rows[key], After(t, START, actions).lastSweep);
  }

  /** A stranded build is settled by the first sweep of a restart that comes after its window. */
  lemma RestartRecovers(t: Timing, actions: seq<Action>, key: string)
    requires Runs(t, START, actions)
    requires var m := After(t, START, actions);
             && !m.up && key in m.rows && m.rows[key].buildState == P.Building
             && m.now > m.rows[key].startedAt.GetOr(0) + P.Window(m.rows[key].manifest, t.perService, t.grace)
    ensures var m := After(t, START, actions);
            && Enabled(t, m, Restart) && Enabled(t, Apply(t, m, Restart), Sweep)
            && var v := Apply(t, Apply(t, m, Restart), Sweep);
               key in v.rows && v.rows[key].buildState == P.Failed
  {
    InvReached(t, actions);
    assert Clean(t, After(t, START, actions).rows[key], After(t, START, actions).lastSweep);
  }

  /** What was last published is what the played manifest declares, Dockerfiles included,
      exactly when the latest publish found the row with the manifest that was built, and every
      image made with its Dockerfile. */
  lemma PlayedAsBuiltIff(t: Timing, actions: seq<Action>, id: string)
    requires Runs(t, START, actions) && P.Playable(After(t, START, actions).rows, id).Some?
    ensures var m := After(t, START, actions);
            && P.Key(id) in m.built
            && (IsOf(m.built[P.Key(id)], P.Playable(m.rows, id).value.manifest) <==> P.Key(id) !in m.outdated)
  {
    InvReached(t, actions);
  }

  /** Which it does, of a build whose Project was not edited since it was read, exactly when
      the cache had no image of another Dockerfile; such a publish clears the history. */
  lemma UneditedIsUpToDateIff(t: Timing, actions: seq<Action>, f: nat, commit: string, svc: Option<P.Commits>,
                              files: map<string, string>)
    requires Runs(t, START, actions)
    requires var m := After(t, START, actions); f in m.flights && m.flights[f].Running? && f !in m.edited
    ensures var m := After(t, START, actions);
            var key, declared := P.Key(m.flights[f].id), Dockerfiles(m.flights[f].manifest);
            && (key !in Apply(t, m, Succeed(f, commit, svc, files)).outdated <==> files == declared)
            && (key !in Apply(t, m, Doubt(f, commit, svc, files)).outdated <==> files == declared)
  {
    InvReached(t, actions);
    assert Holds(After(t, START, actions), f);
    hide Dockerfiles;
  }
}
