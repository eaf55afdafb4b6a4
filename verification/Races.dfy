/** The hypotheses of Builds cannot be dropped: each way a Project's history can be marked
    leads on to two live builds, or to a version played under a manifest it was not built
    from (internal/store/projects.go:264-393, internal/project/project.go:260-310). */
module Races {
  import opened Text
  import opened Manifest
  import opened Published
  import opened Builds
  import P = Projects
  import C = ImageCache
  import B = Publish
  import D = Contents

  /** There is a run from m to v. */
  ghost predicate Leads(t: Timing, m: Machine, v: Machine)
  {
    exists actions :: Runs(t, m, actions) && After(t, m, actions) == v
  }

  lemma LeadsHere(t: Timing, m: Machine)
    ensures Leads(t, m, m)
  {
    assert Runs(t, m, []) && After(t, m, []) == m;
  }

  lemma LeadsNext(t: Timing, m: Machine, v: Machine, a: Action)
    requires Leads(t, m, v) && Enabled(t, v, a)
    ensures Leads(t, m, Apply(t, v, a))
  {
    var actions :| Runs(t, m, actions) && After(t, m, actions) == v;
    var x := OneStep(t, v, [a]);
    RunThen(t, m, actions, [a]);
  }

  /** Two builds of one Project run. */
  ghost predicate Doubled(m: Machine, f: nat, g: nat, key: string)
  {
    f != g && Live(m, f, key) && Live(m, g, key)
  }

  /** Once the row of a live build is not 'building', the Owner's next publish doubles it. */
  lemma NextPublishDoubles(t: Timing, m: Machine, v: Machine, f: nat, g: nat, key: string) returns (both: Machine)
    requires Leads(t, m, v) && v.up && Live(v, f, key) && Holds(v, f) && g !in v.flights
    requires v.rows[key].buildState != P.Building
    ensures Leads(t, m, both) && Doubled(both, f, g, key)
    ensures both.rows == P.Step(v.rows, P.Start(v.flights[f].owner, v.flights[f].id, v.now))
    ensures both == v.(rows := both.rows, flights := both.flights, shortened := both.shortened)
    ensures both.flights.Keys == v.flights.Keys + {g} && both.flights[f] == v.flights[f]
  {
    hide Leads;
    var r := v.flights[f];
    LeadsNext(t, m, v, Read(g, r.owner, r.id));
    var read := Apply(t, v, Read(g, r.owner, r.id));
    LeadsNext(t, m, read, Begin(g));
    both := Apply(t, read, Begin(g));
  }

  /** Every manifest edit that lands while a build runs: the row is idle again, so a second
      live build can start; and the first, when it succeeds, publishes its commits under a
      manifest they were not built from, unless the edit is back to the one it read. */
  lemma EditWhileRunning(t: Timing, m: Machine, f: nat, op: P.Op, g: nat, commit: string, svc: Option<P.Commits>,
                         files: map<string, string>)
    returns (both: Machine, stale: Machine)
    requires Inv(t, m) && m.up && f in m.flights && m.flights[f].Running? && g !in m.flights
    requires Redrafts(m.rows, op, P.Key(m.flights[f].id))
    ensures Leads(t, m, both) && Doubled(both, f, g, P.Key(op.id))
    ensures Leads(t, m, stale) && PublishedAs(stale, m.flights[f], op, commit, files)
    ensures op.manifest != m.flights[f].manifest ==> P.Key(op.id) in stale.outdated
  {
    hide Leads, Dockerfiles;
    var key := P.Key(op.id);
    assert Holds(m, f) && P.Owns(m.rows, m.flights[f].owner, m.flights[f].id);
    LeadsHere(t, m);
    LeadsNext(t, m, m, Edit(op));
    var edited := Apply(t, m, Edit(op));
    EditKeeps(m, op, f);
    assert edited.rows[key].buildState == P.Idle && Live(edited, f, key);
    both := NextPublishDoubles(t, m, edited, f, g, key);
    LeadsNext(t, m, edited, Succeed(f, commit, svc, files));
    stale := Apply(t, edited, Succeed(f, commit, svc, files));
    SucceedsAnyway(t, edited, f, op, commit, svc, files);
  }

  /** The edited Project is published, at the commits and with the images of build f. */
  ghost predicate PublishedAs(v: Machine, f: Flight, op: P.Op, commit: string, files: map<string, string>)
    requires op.Update?
  {
    var key := P.Key(op.id);
    && key in v.rows && v.rows[key].published && v.rows[key].commit == Some(commit)
    && v.rows[key].manifest == op.manifest
    && key in v.built && v.built[key] == Build(f.manifest, files)
    && (key in v.outdated <==> !IsOf(v.built[key], op.manifest))
  }

  lemma SucceedsAnyway(t: Timing, m: Machine, f: nat, op: P.Op, commit: string, svc: Option<P.Commits>,
                       files: map<string, string>)
    requires f in m.flights && m.flights[f].Running? && op.Update? && P.Key(op.id) == P.Key(m.flights[f].id)
    requires P.Owns(m.rows, m.flights[f].owner, m.flights[f].id) && m.rows[P.Key(op.id)].manifest == op.manifest
    ensures PublishedAs(Apply(t, m, Succeed(f, commit, svc, files)), m.flights[f], op, commit, files)
  {
    hide Dockerfiles;
  }

  /** Every manifest edit that lands between the handler's read and its build: the build
      starts, and publishes commits of the manifest that was read under the edited one. */
  lemma EditWhileReading(t: Timing, m: Machine, f: nat, op: P.Op, commit: string, svc: Option<P.Commits>,
                         files: map<string, string>)
    returns (stale: Machine)
    requires Inv(t, m) && m.up && f in m.flights && m.flights[f].Reading?
    requires Redrafts(m.rows, op, P.Key(m.flights[f].id))
    ensures Leads(t, m, stale) && PublishedAs(stale, m.flights[f], op, commit, files)
    ensures op.manifest != m.flights[f].manifest ==> P.Key(op.id) in stale.outdated
  {
    hide Leads, Dockerfiles;
    var key := P.Key(m.flights[f].id);
    assert Holds(m, f) && P.Owns(m.rows, m.flights[f].owner, m.flights[f].id);
    LeadsHere(t, m);
    LeadsNext(t, m, m, Edit(op));
    var edited := Apply(t, m, Edit(op));
    assert edited.rows[key].buildState == P.Idle && edited.flights == m.flights;
    LeadsNext(t, m, edited, Begin(f));
    var begun := Apply(t, edited, Begin(f));
    assert begun.flights[f] == Running(m.flights[f].owner, m.flights[f].id, m.flights[f].manifest, m.now);
    LeadsNext(t, m, begun, Succeed(f, commit, svc, files));
    stale := Apply(t, begun, Succeed(f, commit, svc, files));
    SucceedsAnyway(t, begun, f, op, commit, svc, files);
  }

  // ---- A Dockerfile edited, and nothing else ----

  /** Every edit of a Project whose services fit the cache that changes Dockerfiles only: after
      a publish whose images are still there, with no repository moved, the Project can be
      published again under the edited manifest without a build, with the images of the
      Dockerfiles before. None of its builds overlapped the edit. */
  lemma EditOfADockerfile(t: Timing, m: Machine, op: P.Op, g: nat, commit: string, commits: P.Commits,
                          made: map<string, string>, list: seq<C.Image>, max: nat) returns (stale: Machine)
    requires Inv(t, m) && m.up && g !in m.flights && op.Update?
    requires var key := P.Key(op.id);
             && Redrafts(m.rows, op, key) && DistinctNames(op.manifest.services)
             && D.SameButDockerfiles(m.rows[key].manifest.services, op.manifest.services)
    requires 1 <= |op.manifest.services| <= max && |list| <= max && C.DistinctImages(list)
    ensures var before, key := m.rows[P.Key(op.id)].manifest, P.Key(op.id);
            var files := D.PublishedFiles(made, list, max, op.id, before, commits);
            && RebuildsNothing(made, list, max, op.id, before, op.manifest, commits)
            && Leads(t, m, stale) && key in stale.rows && stale.rows[key].published
            && stale.rows[key].manifest == op.manifest && stale.rows[key].serviceCommits == Some(commits)
            && key in stale.built && stale.built[key] == Build(op.manifest, files)
            && (files != Dockerfiles(op.manifest) ==> key in stale.outdated)
  {
    hide Leads, Dockerfiles, D.PublishedFiles, RebuildsNothing;
    var before := m.rows[P.Key(op.id)].manifest;
    NothingIsRebuilt(made, list, max, op.id, before, op.manifest, commits);
    LeadsHere(t, m);
    LeadsNext(t, m, m, Edit(op));
    var edited := Apply(t, m, Edit(op));
    stale := PublishedAfresh(t, m, edited, op, g, commit, commits,
                             D.PublishedFiles(made, list, max, op.id, before, commits));
  }

  /** After a publish of one manifest, a publish of the other at the same pins is served without
      a build, and with the same images. */
  ghost predicate RebuildsNothing(made: map<string, string>, list: seq<C.Image>, max: nat, id: string,
                                  before: Manifest, after: Manifest, commits: P.Commits)
  {
    var images := B.ImagesFor(id, before.services, "", commits);
    var warm := B.Warmed(list, max, images);
    var now := B.MadeWith(made, list, max, images, DockerfilesOf(before.services));
    && B.ImagesFor(id, after.services, "", commits) == images && B.AllServed(warm, max, images, _ => false)
    && D.PublishedFiles(now, warm, max, id, after, commits) == D.PublishedFiles(made, list, max, id, before, commits)
  }

  lemma NothingIsRebuilt(made: map<string, string>, list: seq<C.Image>, max: nat, id: string,
                         before: Manifest, after: Manifest, commits: P.Commits)
    requires DistinctNames(after.services) && D.SameButDockerfiles(before.services, after.services)
    requires 1 <= |after.services| <= max && |list| <= max && C.DistinctImages(list)
    ensures RebuildsNothing(made, list, max, id, before, after, commits)
  {
    D.SameNames(before.services, after.services);
    D.RepublishServesOldImages(made, list, max, id, before, after, commits);
  }

  /** A whole publish of an idle Project, with no edit while it goes on. */
  lemma PublishedAfresh(t: Timing, m: Machine, v: Machine, op: P.Op, g: nat, commit: string, commits: P.Commits,
                        files: map<string, string>) returns (done: Machine)
    requires Leads(t, m, v) && v.up && g !in v.flights && op.Update? && P.Owns(v.rows, op.owner, op.id)
    requires v.rows[P.Key(op.id)].buildState == P.Idle && v.rows[P.Key(op.id)].manifest == op.manifest
    ensures Leads(t, m, done) && P.Key(op.id) in done.rows && done.rows[P.Key(op.id)].published
    ensures done.rows[P.Key(op.id)].manifest == op.manifest && done.rows[P.Key(op.id)].serviceCommits == Some(commits)
    ensures P.Key(op.id) in done.built && done.built[P.Key(op.id)] == Build(op.manifest, files)
    ensures files != Dockerfiles(op.manifest) ==> P.Key(op.id) in done.outdated
  {
    hide Leads, Dockerfiles;
    LeadsNext(t, m, v, Read(g, op.owner, op.id));
    var read := Apply(t, v, Read(g, op.owner, op.id));
    LeadsNext(t, m, read, Begin(g));
    var begun := Apply(t, read, Begin(g));
    assert begun.flights[g] == Running(op.owner, op.id, op.manifest, v.now);
    LeadsNext(t, m, begun, Succeed(g, commit, Some(commits), files));
    done := Apply(t, begun, Succeed(g, commit, Some(commits), files));
  }

  /** Every publish that is recorded but reported as failed: the row is not 'building' while
      its goroutine still has the failure to write. */
  lemma DoubtWhileRunning(t: Timing, m: Machine, f: nat, g: nat, commit: string, svc: Option<P.Commits>,
                          files: map<string, string>)
    returns (both: Machine)
    requires Inv(t, m) && m.up && f in m.flights && m.flights[f].Running? && g !in m.flights
    ensures Leads(t, m, both) && Doubled(both, f, g, P.Key(m.flights[f].id))
  {
    hide Leads;
    var key := P.Key(m.flights[f].id);
    assert Holds(m, f);
    LeadsHere(t, m);
    LeadsNext(t, m, m, Doubt(f, commit, svc, files));
    var doubted := Apply(t, m, Doubt(f, commit, svc, files));
    assert doubted.rows[key].buildState == P.Published && Live(doubted, f, key) && Holds(doubted, f);
    both := NextPublishDoubles(t, m, doubted, f, g, key);
  }

  // ---- A row with fewer services than the build ----

  lemma AnotherEnds(t: Timing, m: Machine, f: nat, g: nat) returns (a: Action)
    requires f in m.flights && g in m.flights && f != g
    ensures Enabled(t, m, a)
    ensures var v := Apply(t, m, a);
            && v == m.(flights := v.flights, edited := v.edited, loosened := v.loosened, shortened := v.shortened)
            && f in v.flights && v.flights[f] == m.flights[f] && (f in v.edited <==> f in m.edited)
            && |v.flights| < |m.flights|
  {
    a := if m.flights[g].Running? then Lose(g) else GiveUp(g);
    assert m.flights.Keys == (m.flights - {g}).Keys + {g};
  }

  /** Every other flight may end without touching a row. */
  lemma {:induction false} AllOthersEnd(t: Timing, start: Machine, m: Machine, f: nat) returns (v: Machine)
    requires Leads(t, start, m) && f in m.flights
    ensures Leads(t, start, v)
            && v == m.(flights := v.flights, edited := v.edited, loosened := v.loosened, shortened := v.shortened)
    ensures v.flights == map[f := m.flights[f]] && (f in v.edited <==> f in m.edited)
    decreases |m.flights|
  {
    hide Leads, Enabled, Apply, HasLive;
    if g :| g in m.flights && g != f {
      var a := AnotherEnds(t, m, f, g);
      LeadsNext(t, start, m, a);
      v := AllOthersEnd(t, start, Apply(t, m, a), f);
    } else {
      assert m.flights == map[f := m.flights[f]];
      v := m;
    }
  }

  /** Every build that starts on a row of fewer services than it read can be reclaimed alive
      by the sweep, and then doubled. */
  lemma ShortWindow(t: Timing, m: Machine, f: nat, g: nat) returns (reclaimed: Machine, both: Machine)
    requires Inv(t, m) && m.up && t.perService > 0 && f in m.flights && m.flights[f].Reading? && f != g
    requires var row := m.rows[P.Key(m.flights[f].id)];
             row.buildState != P.Building && |row.manifest.services| < |m.flights[f].manifest.services|
    ensures var key := P.Key(m.flights[f].id);
            && Leads(t, m, reclaimed) && Live(reclaimed, f, key) && key in reclaimed.rows
            && reclaimed.rows[key].buildState == P.Failed && reclaimed.rows[key].buildError == Some(P.INTERRUPTED)
            && Leads(t, m, both) && Doubled(both, f, g, key)
  {
    hide Leads;
    var key := P.Key(m.flights[f].id);
    assert Holds(m, f);
    LeadsHere(t, m);
    var alone := AllOthersEnd(t, m, m, f);
    assert Holds(m, f) && f in m.edited && f in alone.edited;
    LeadsNext(t, m, alone, Begin(f));
    var begun := Apply(t, alone, Begin(f));
    var row := begun.rows[key];
    assert row.startedAt == Some(m.now) && row.buildState == P.Building && Live(begun, f, key);
    ShorterByOne(t, row.manifest, m.flights[f].manifest);
    assert f in begun.edited && key in begun.shortened;
    reclaimed := ReclaimedAlive(t, m, begun, f, key);
    both := NextPublishDoubles(t, m, reclaimed, f, g, key);
  }

  lemma ShorterByOne(t: Timing, a: Manifest, b: Manifest)
    requires |a.services| < |b.services| && t.perService > 0
    ensures 0 <= P.Window(a, t.perService, t.grace) < P.Window(b, t.perService, t.grace)
  {
    var n, k := |a.services| + 1, |b.services| - |a.services|;
    assert (n + k) * t.perService == n * t.perService + k * t.perService;
    assert k * t.perService >= t.perService && n * t.perService >= 0;
  }

  /** One nanosecond past the row's window, a sweep takes the row from its live build. */
  lemma ReclaimedAlive(t: Timing, start: Machine, m: Machine, f: nat, key: string) returns (v: Machine)
    requires Leads(t, start, m) && m.up && Live(m, f, key) && m.flights.Keys == {f} && key in m.rows
    requires P.Owns(m.rows, m.flights[f].owner, m.flights[f].id) && m.flights[f].startedAt == m.now
    requires var row := m.rows[key];
             && row.buildState == P.Building && row.startedAt == Some(m.now)
             && 0 <= P.Window(row.manifest, t.perService, t.grace)
                < P.Window(m.flights[f].manifest, t.perService, t.grace)
    requires f in m.edited && (key in m.loosened || key in m.shortened)
    ensures Leads(t, start, v) && v.up && v.flights == m.flights && Live(v, f, key) && Holds(v, f) && key in v.rows
    ensures v.rows[key].buildState == P.Failed && v.rows[key].buildError == Some(P.INTERRUPTED)
  {
    hide Leads, P.Window;
    var window := P.Window(m.rows[key].manifest, t.perService, t.grace);
    LeadsNext(t, start, m, Advance(window + 1));
    var later := Apply(t, m, Advance(window + 1));
    LeadsNext(t, start, later, Sweep);
    v := Apply(t, later, Sweep);
  }
}
