/** The lifecycle with a clock (internal/session/session.go, internal/session/reaper.go): the
    reaper tears down what its scans judge, so a deployer can read off the configured times
    when no boot in flight is ever reaped. */
module Lifetimes {
  import opened Text
  import opened Protocol
  import R = Registry
  import S = Reaper

  /** The world, the time, the reaper's clocks, when its current tick began, and whom that
      tick has still to visit. */
  datatype Timed = Timed(w: World, now: int, clocks: map<string, S.Clock>, tickAt: int, left: set<string>)

  datatype Event =
    | Elapse(dt: nat)
    | Step(a: Action)
    | BeginTick
    | Visit(id: string, count: Option<nat>, health: S.Answer)

  function Started(now: int): Timed { Timed(START, now, map[], now, {}) }

  /** The steps of the lifecycle that the reaper's judgement decides on. */
  predicate Judged(a: Action) { a.TickBegins? || a.Linger? || a.Reap? }

  function JudgementOf(rcfg: S.Config, t: Timed, e: Event): S.Judgement
    requires e.Visit? && t.w.reaper.Scanning? && e.id in t.w.reaper.todo
  {
    S.Judge(rcfg, t.w.reaper.todo[e.id], S.Tracked(t.clocks, e.id), S.Reading(t.tickAt, e.count, e.health, true))
  }

  /** The step of the lifecycle an event is, if any. */
  function ActionOf(rcfg: S.Config, t: Timed, e: Event): Option<Action>
    requires e.Visit? ==> t.w.reaper.Scanning? && e.id in t.w.reaper.todo
  {
    match e
    case Elapse(_) => None
    case Step(a) => Some(a)
    case BeginTick => Some(TickBegins)
    case Visit(id, _, _) =>
      var v := JudgementOf(rcfg, t, e).verdict;
      if v == S.Lingered then Some(Linger(id)) else if v.TearsDown() then Some(Reap(id, v == S.Crash)) else None
  }

  predicate MayHappen(cfg: Config, rcfg: S.Config, t: Timed, e: Event)
  {
    match e
    case Elapse(_) => true
    case Step(a) => !Judged(a) && Enabled(cfg, t.w, a) && (a.TickEnds? ==> t.left == {})
    case BeginTick => Enabled(cfg, t.w, TickBegins)
    case Visit(id, _, _) =>
      && t.w.reaper.Scanning? && id in t.left && id in t.w.reaper.todo
      && (ActionOf(rcfg, t, e).Some? ==> Enabled(cfg, t.w, ActionOf(rcfg, t, e).value))
  }

  /** A Session stays tracked until a teardown that works takes it, or its page has lingered. */
  function ClocksAfter(rcfg: S.Config, t: Timed, e: Event): map<string, S.Clock>
    requires e.Visit? ==> t.w.reaper.Scanning? && e.id in t.w.reaper.todo
  {
    match e
    case BeginTick => map id | id in t.clocks && id in t.w.routes :: t.clocks[id]
    case Visit(id, _, _) =>
      var j := JudgementOf(rcfg, t, e);
      if j.verdict == S.Lingered then t.clocks - {id} else t.clocks[id := j.clock]
    case Step(a) => if a.ReapRemove? && t.w.reaper.Removing? && !t.w.reaper.crash then t.clocks - {t.w.reaper.id}
      else t.clocks
    case Elapse(_) => t.clocks
  }

  function Next(cfg: Config, rcfg: S.Config, t: Timed, e: Event): Timed
    requires MayHappen(cfg, rcfg, t, e)
  {
    var a := ActionOf(rcfg, t, e);
    Timed(if a.Some? then Apply(cfg, t.w, a.value) else t.w,
      if e.Elapse? then t.now + e.dt else t.now,
      ClocksAfter(rcfg, t, e),
      if e.BeginTick? then t.now else t.tickAt,
      if e.BeginTick? then t.w.routes.Keys else if e.Visit? then t.left - {e.id} else t.left)
  }

  predicate Happens(cfg: Config, rcfg: S.Config, t: Timed, events: seq<Event>)
    decreases |events|
  {
    events == []
      || (MayHappen(cfg, rcfg, t, events[0]) && Happens(cfg, rcfg, Next(cfg, rcfg, t, events[0]), events[1..]))
  }

  function End(cfg: Config, rcfg: S.Config, t: Timed, events: seq<Event>): Timed
    requires Happens(cfg, rcfg, t, events)
    decreases |events|
  {
    if events == [] then t else End(cfg, rcfg, Next(cfg, rcfg, t, events[0]), events[1..])
  }

  /** Every boot in flight is younger than MaxRuntime, counted from when a scan first saw it. */
  predicate BootsAreYoung(rcfg: S.Config, t: Timed)
  {
    forall id :: id in t.w.boots && id in t.clocks ==> t.now - t.clocks[id].firstSeen < rcfg.maxRuntime
  }

  predicate Prompt(cfg: Config, rcfg: S.Config, t: Timed, events: seq<Event>)
    requires Happens(cfg, rcfg, t, events)
    decreases |events|
  {
    BootsAreYoung(rcfg, t) && (events != [] ==> Prompt(cfg, rcfg, Next(cfg, rcfg, t, events[0]), events[1..]))
  }

  function ActionsOf(cfg: Config, rcfg: S.Config, t: Timed, events: seq<Event>): seq<Action>
    requires Happens(cfg, rcfg, t, events)
    decreases |events|
  {
    if events == [] then []
    else
      var a := ActionOf(rcfg, t, events[0]);
      (if a.Some? then [a.value] else []) + ActionsOf(cfg, rcfg, Next(cfg, rcfg, t, events[0]), events[1..])
  }

  /** What happens in time is a run of the lifecycle. */
  lemma {:induction false} TimedIsARun(cfg: Config, rcfg: S.Config, t: Timed, events: seq<Event>)
    requires Happens(cfg, rcfg, t, events)
    ensures Runs(cfg, t.w, ActionsOf(cfg, rcfg, t, events))
    ensures After(cfg, t.w, ActionsOf(cfg, rcfg, t, events)) == End(cfg, rcfg, t, events).w
    decreases |events|
  {
    if events != [] {
      var next := Next(cfg, rcfg, t, events[0]);
      var rest := ActionsOf(cfg, rcfg, next, events[1..]);
      TimedIsARun(cfg, rcfg, next, events[1..]);
      hide Next, ClocksAfter;
      var a := ActionOf(rcfg, t, events[0]);
      if a.Some? {
        assert next.w == Apply(cfg, t.w, a.value) by { NextWorld(cfg, rcfg, t, events[0]); }
        RunCons(cfg, t.w, a.value, rest);
      } else {
        assert next.w == t.w by { NextWorld(cfg, rcfg, t, events[0]); }
        assert [] + rest == rest;
      }
    }
  }

  lemma NextWorld(cfg: Config, rcfg: S.Config, t: Timed, e: Event)
    requires MayHappen(cfg, rcfg, t, e)
    ensures var a := ActionOf(rcfg, t, e);
            (a.Some? ==> Enabled(cfg, t.w, a.value))
              && Next(cfg, rcfg, t, e).w == if a.Some? then Apply(cfg, t.w, a.value) else t.w
  {
  }

  /** A young boot is not torn down: the reaper saw it Booting, and judges that by age alone. */
  lemma YoungIsSpared(cfg: Config, rcfg: S.Config, t: Timed, e: Event)
    requires rcfg.maxRuntime > 0 && BootsAreYoung(rcfg, t) && t.tickAt <= t.now
    requires e.Visit? && MayHappen(cfg, rcfg, t, e) && Fine(t.w, e.id) && e.id in t.w.boots
    ensures !JudgementOf(rcfg, t, e).verdict.TearsDown()
  {
    assert t.w.reaper.todo[e.id] == R.Booting;
  }

  lemma EarlyStep(cfg: Config, rcfg: S.Config, t: Timed, e: Event)
    requires rcfg.maxRuntime > 0 && BootsAreYoung(rcfg, t) && t.tickAt <= t.now
    requires MayHappen(cfg, rcfg, t, e) && forall id :: Fine(t.w, id)
    ensures Next(cfg, rcfg, t, e).w.early == t.w.early && Next(cfg, rcfg, t, e).tickAt <= Next(cfg, rcfg, t, e).now
    ensures forall id :: Fine(Next(cfg, rcfg, t, e).w, id)
  {
    NextWorld(cfg, rcfg, t, e);
    var a := ActionOf(rcfg, t, e);
    if e.Visit? && e.id in t.w.boots {
      YoungIsSpared(cfg, rcfg, t, e);
    }
    if a.Some? {
      OnlyReapsAreEarly(cfg, t.w, a.value);
      forall id ensures Fine(Apply(cfg, t.w, a.value), id) { FineIsKept(cfg, t.w, a.value, id); }
    }
    hide Fine, JudgementOf, Apply, Enabled;
  }

  lemma OnlyReapsAreEarly(cfg: Config, w: World, a: Action)
    requires Enabled(cfg, w, a) && (a.Reap? ==> a.id !in w.boots)
    ensures Apply(cfg, w, a).early == w.early
  {
    hide R.HostOf, R.Added, R.Promoted, R.FailedAs;
  }

  lemma {:induction false} NobodyIsEarly(cfg: Config, rcfg: S.Config, t: Timed, events: seq<Event>)
    requires rcfg.maxRuntime > 0 && t.tickAt <= t.now && (forall id :: Fine(t.w, id))
    requires Happens(cfg, rcfg, t, events) && Prompt(cfg, rcfg, t, events)
    ensures End(cfg, rcfg, t, events).w.early == t.w.early
    decreases |events|
  {
    if events != [] {
      EarlyStep(cfg, rcfg, t, events[0]);
      NobodyIsEarly(cfg, rcfg, Next(cfg, rcfg, t, events[0]), events[1..]);
    }
  }

  /** When every boot ends before MaxRuntime has passed since a scan first saw it, no boot in
      flight is reaped, and so the cap bounds the active Sessions; if moreover no failed boot
      fails to bring its containers down, it bounds the Stacks, all of them visible. */
  lemma PromptBootsKeepTheCap(cfg: Config, rcfg: S.Config, now: int, events: seq<Event>)
    requires cfg.cap > 0 && rcfg.maxRuntime > 0
    requires Happens(cfg, rcfg, Started(now), events) && Prompt(cfg, rcfg, Started(now), events)
    ensures var actions, w := ActionsOf(cfg, rcfg, Started(now), events), End(cfg, rcfg, Started(now), events).w;
            && Runs(cfg, START, actions) && After(cfg, START, actions) == w
            && (forall id :: !ReapedInFlight(cfg, START, actions, id))
            && |Active(w.routes)| <= cfg.cap
            && ((forall id :: !DownFailed(actions, id)) ==> w.stacks <= Active(w.routes) && |w.stacks| <= cfg.cap)
  {
    var actions := ActionsOf(cfg, rcfg, Started(now), events);
    TimedIsARun(cfg, rcfg, Started(now), events);
    forall id ensures Fine(START, id) {}
    NobodyIsEarly(cfg, rcfg, Started(now), events);
    forall id ensures !ReapedInFlight(cfg, START, actions, id) { HistoryIsWhatHappened(cfg, START, actions, id); }
    LifecycleTheorem(cfg, actions);
  }
}
