/** One goroutine among the others. A path is a run of the lifecycle in which the caller's own
    steps stand in a given order and anything the others can do stands between them. */
module Interleaving {
  import opened Protocol

  /** Whose steps are looked at: those of one Session's boot, its launch included, the reaper's,
      those of the Play that holds the admission lock, or the shutdown's. */
  datatype Caller = Boots(id: string) | Reaps | Plays | Stops

  predicate BootStep(a: Action)
  {
    match a
    case Launch(_) | SourceFails(_) | Stage(_, _, _) | UpBegins(_) | UpSucceeds(_) | UpFails(_) => true
    case AttachSucceeds(_) | AttachFails(_) => true
    case Promote(_) | DownSucceeds(_) | DownFails(_) | DropRoute(_) | Decide(_) | Settle(_) => true
    case _ => false
  }

  predicate ReaperStep(a: Action)
  {
    match a
    case TickBegins | Linger(_) | Reap(_, _) | ReapDownSucceeds | ReapDownFails | ReapRemove | MarkCrashed | TickEnds =>
      true
    case _ => false
  }

  predicate Mine(a: Action, c: Caller)
  {
    match c
    case Boots(id) => BootStep(a) && a.id == id
    case Reaps => ReaperStep(a)
    case Plays => a.Admit? || a.Play? || a.Forgo?
    case Stops => a.Cancel?
  }

  predicate Foreign(actions: seq<Action>, c: Caller) { forall i :: 0 <= i < |actions| ==> !Mine(actions[i], c) }

  function Own(actions: seq<Action>, c: Caller): seq<Action>
  {
    if actions == [] then []
    else Own(actions[..|actions| - 1], c) + if Mine(actions[|actions| - 1], c) then [actions[|actions| - 1]] else []
  }

  lemma {:induction false} OwnAppend(a: seq<Action>, b: seq<Action>, c: Caller)
    ensures Own(a + b, c) == Own(a, c) + Own(b, c)
  {
    if b == [] {
      assert a + b == a;
    } else {
      var init := b[..|b| - 1];
      OwnAppend(a, init, c);
      assert (a + b)[..|a + b| - 1] == a + init;
    }
  }

  lemma {:induction false} OwnForeign(actions: seq<Action>, c: Caller)
    requires Foreign(actions, c)
    ensures Own(actions, c) == []
  {
    if actions != [] {
      OwnForeign(actions[..|actions| - 1], c);
    }
  }

  /** script leads from w to v, and own are the caller's steps in it. */
  ghost predicate Path(cfg: Config, w: World, script: seq<Action>, v: World, c: Caller, own: seq<Action>)
  {
    Runs(cfg, w, script) && After(cfg, w, script) == v && Own(script, c) == own
  }

  lemma PathStart(cfg: Config, w: World, c: Caller)
    ensures Path(cfg, w, [], w, c, [])
  {
  }

  lemma PathAct(cfg: Config, w: World, script: seq<Action>, v: World, c: Caller, own: seq<Action>, a: Action,
                now: seq<Action>)
    requires Path(cfg, w, script, v, c, own) && Enabled(cfg, v, a) && Mine(a, c) && now == own + [a]
    ensures Path(cfg, w, script + [a], Apply(cfg, v, a), c, now)
  {
    RunThen(cfg, w, script, a);
    assert (script + [a])[..|script|] == script;
  }

  lemma PathJoin(cfg: Config, w: World, first: seq<Action>, v: World, second: seq<Action>, x: World, c: Caller,
                 own: seq<Action>, more: seq<Action>, all: seq<Action>)
    requires Path(cfg, w, first, v, c, own) && Path(cfg, v, second, x, c, more) && all == own + more
    ensures Path(cfg, w, first + second, x, c, all)
  {
    RunAppend(cfg, w, first, second);
    OwnAppend(first, second, c);
  }

  /** What the others do at one point: anything that is possible and not the caller's. An
      oracle that asks for more is ignored, so every interleaving comes of some oracle. */
  function Heard(cfg: Config, w: World, c: Caller, others: seq<Action>): (heard: seq<Action>)
    ensures Runs(cfg, w, heard) && Foreign(heard, c)
  {
    if Runs(cfg, w, others) && Foreign(others, c) then others else []
  }

  function Meanwhile(cfg: Config, w: World, c: Caller, others: seq<Action>): World
  {
    After(cfg, w, Heard(cfg, w, c, others))
  }

  lemma PathOthers(cfg: Config, w: World, script: seq<Action>, v: World, c: Caller, own: seq<Action>,
                   others: seq<Action>)
    requires Path(cfg, w, script, v, c, own)
    ensures Path(cfg, w, script + Heard(cfg, v, c, others), Meanwhile(cfg, v, c, others), c, own)
  {
    var heard := Heard(cfg, v, c, others);
    OwnForeign(heard, c);
    PathJoin(cfg, w, script, v, heard, Meanwhile(cfg, v, c, others), c, own, [], own);
  }

  /** Where the caller stands, which only its own steps move. */
  ghost predicate Stands(w: World, v: World, c: Caller)
  {
    match c
    case Boots(id) => id in w.minted && id in w.boots && id in v.minted && id in v.boots && v.boots[id] == w.boots[id]
    case Reaps => v.reaper == w.reaper
    case Plays => v.admitting == w.admitting && v.minted == w.minted
    case Stops => w.cancelled ==> v.cancelled
  }

  lemma StandsStep(cfg: Config, w: World, a: Action, c: Caller)
    requires Enabled(cfg, w, a) && !Mine(a, c) && Stands(w, w, c)
    ensures Stands(w, Apply(cfg, w, a), c)
  {
  }

  lemma {:induction false} OthersLeaveItStanding(cfg: Config, w: World, c: Caller, others: seq<Action>)
    requires Runs(cfg, w, others) && Foreign(others, c) && Stands(w, w, c)
    ensures Stands(w, After(cfg, w, others), c)
    decreases |others|
  {
    if others != [] {
      StandsStep(cfg, w, others[0], c);
      OthersLeaveItStanding(cfg, Apply(cfg, w, others[0]), c, others[1..]);
    }
  }

  lemma StillStands(cfg: Config, w: World, c: Caller, others: seq<Action>)
    requires Stands(w, w, c)
    ensures Stands(w, Meanwhile(cfg, w, c, others), c)
  {
    OthersLeaveItStanding(cfg, w, c, Heard(cfg, w, c, others));
  }
}
