/** The background publisher (internal/project/publisher.go): how a finished build settles
    its Project's row, as steps of the timed machine. */
module Publisher {
  import opened Text
  import opened Manifest
  import P = Projects
  import B = Builds

  // ---- The headline commit ----

  function CommitOf(commits: P.Commits, name: string): string { if name in commits then commits[name] else "" }

  /** The first UI service there is. */
  function FirstUI(services: seq<Service>): Option<Service>
  {
    if services == [] then None else if services[0].role == UI then Some(services[0]) else FirstUI(services[1..])
  }

  /** The first commit there is. */
  function FirstCommit(services: seq<Service>, commits: P.Commits): string
  {
    if services == [] then ""
    else if CommitOf(commits, services[0].name) != "" then CommitOf(commits, services[0].name)
    else FirstCommit(services[1..], commits)
  }

  function HeadlineOf(m: Manifest, commits: P.Commits): string
  {
    match FirstUI(m.services)
    case Some(svc) => CommitOf(commits, svc.name)
    case None => FirstCommit(m.services, commits)
  }

  method HeadlineCommit(m: Manifest, commits: P.Commits) returns (headline: string)
    ensures headline == HeadlineOf(m, commits)
  {
    for i := 0 to |m.services|
      invariant FirstUI(m.services[i..]) == FirstUI(m.services)
    {
      if m.services[i].role == UI {
        return CommitOf(commits, m.services[i].name);
      }
    }
    for i := 0 to |m.services|
      invariant FirstCommit(m.services[i..], commits) == FirstCommit(m.services, commits)
    {
      var c := CommitOf(commits, m.services[i].name);
      if c != "" {
        return c;
      }
    }
    return "";
  }

  /** With exactly one UI service, as validation has it, the headline is its commit, if any. */
  lemma {:induction false} HeadlineIsTheUi(m: Manifest, commits: P.Commits, i: nat)
    requires i < |m.services| && m.services[i].role == UI
    requires forall j :: 0 <= j < |m.services| && m.services[j].role == UI ==> j == i
    ensures HeadlineOf(m, commits) == if m.services[i].name in commits then commits[m.services[i].name] else ""
  {
    SkipNonUi(m.services, i);
  }

  lemma {:induction false} SkipNonUi(services: seq<Service>, i: nat)
    requires i < |services| && services[i].role == UI && forall j :: 0 <= j < i ==> services[j].role != UI
    ensures FirstUI(services) == Some(services[i])
  {
    if i > 0 {
      SkipNonUi(services[1..], i - 1);
    }
  }

  /** Service i is the first one with a commit. */
  ghost predicate FirstPinned(services: seq<Service>, commits: P.Commits, i: int)
  {
    && 0 <= i < |services| && services[i].name in commits && commits[services[i].name] != ""
    && forall j :: 0 <= j < i ==> services[j].name in commits ==> commits[services[j].name] == ""
  }

  /** With no UI service the headline is the first commit there is; without one it is empty. */
  lemma HeadlineWithoutUi(m: Manifest, commits: P.Commits, i: int)
    requires forall j :: 0 <= j < |m.services| ==> m.services[j].role != UI
    ensures FirstPinned(m.services, commits, i) ==> HeadlineOf(m, commits) == commits[m.services[i].name]
    ensures (forall k :: !FirstPinned(m.services, commits, k)) ==> HeadlineOf(m, commits) == ""
  {
    NoUi(m.services);
    FirstCommitIs(m.services, commits);
  }

  lemma {:induction false} NoUi(services: seq<Service>)
    requires forall j :: 0 <= j < |services| ==> services[j].role != UI
    ensures FirstUI(services) == None
  {
    if services != [] {
      NoUi(services[1..]);
    }
  }

  lemma {:induction false} FirstCommitIs(services: seq<Service>, commits: P.Commits)
    ensures forall i :: FirstPinned(services, commits, i) ==>
              FirstCommit(services, commits) == commits[services[i].name]
    ensures (forall i :: !FirstPinned(services, commits, i)) ==> FirstCommit(services, commits) == ""
  {
    if services != [] {
      var rest := services[1..];
      FirstCommitIs(rest, commits);
      if CommitOf(commits, services[0].name) != "" {
        assert FirstPinned(services, commits, 0);
      } else {
        forall i ensures FirstPinned(services, commits, i) <==> FirstPinned(rest, commits, i - 1) {
          assert FirstPinned(rest, commits, i - 1) ==> forall j :: 1 <= j < i ==> services[j] == rest[j - 1];
          assert FirstPinned(services, commits, i) ==> forall j :: 0 <= j < i - 1 ==> rest[j] == services[j + 1];
        }
        assert forall k :: FirstPinned(rest, commits, k) ==> FirstPinned(services, commits, k + 1);
      }
    }
  }

  /** lastBytes: the end of a message, marked when something was cut. */
  function LastChars(s: string, max: nat): string
  {
    if |s| <= max then s else "…" + s[|s| - max..]
  }

  /** The last max characters, after a mark, of a message that is longer; a short one whole. */
  lemma LastCharsAre(s: string, max: nat)
    ensures |s| <= max ==> LastChars(s, max) == s
    ensures |s| > max ==>
              var kept := LastChars(s, max);
              |kept| == max + 1 && kept[0] == '…' && kept[1..] == s[|s| - max..]
  {
  }

  // ---- Settling ----

  /** How a build ended; a build that worked has by service the Dockerfile its image was made
      with. */
  datatype Result = Built(commits: P.Commits, files: map<string, string>) | NotInstalled | NotBuilt(error: string)

  /** The commit a publish shows; only a build that worked has one. */
  function Headline(m: Manifest, r: Result): string { if r.Built? then HeadlineOf(m, r.commits) else "" }

  function FailureMessage(r: Result): string
    requires !r.Built?
  {
    if r.NotInstalled? then NOT_INSTALLED
    else "build failed:\n" + LastChars(r.error, 4096)
  }

  const NOT_INSTALLED := "the Showcase GitHub App is not installed on that repository"
  const NOT_RECORDED := "build succeeded but publishing failed; please retry"

  /** How a publish statement ends: recorded, lost, or recorded but reported as failed. */
  datatype Write = Recorded | Lost | Doubtful

  /** The build is published, and nothing is left to do. */
  predicate Finished(r: Result, write: Write) { r.Built? && write.Recorded? }

  /** The publish statement of a build that worked. */
  function Publishing(f: nat, r: Result, headline: string, write: Write): seq<B.Action>
  {
    if !r.Built? || write.Lost? then []
    else if write.Doubtful? then [B.Doubt(f, headline, Some(r.commits), r.files)]
    else [B.Succeed(f, headline, Some(r.commits), r.files)]
  }

  /** The failure statement, when there is one, which may be lost too; a cancelled build makes none. */
  function Failing(f: nat, r: Result, cancelled: bool, write: Write, fails: bool): seq<B.Action>
  {
    if Finished(r, write) then []
    else if !fails || (!r.Built? && cancelled) then [B.Lose(f)]
    else [B.Fail(f, if r.Built? then NOT_RECORDED else FailureMessage(r))]
  }

  /** What the Owner reads: why nothing was installed, the tail of a failed build's output, or
      that a build that worked could not be recorded. */
  lemma FailureText(f: nat, r: Result, write: Write)
    requires !Finished(r, write)
    ensures r.Built? ==>
              Failing(f, r, false, write, true) == [B.Fail(f, "build succeeded but publishing failed; please retry")]
    ensures r.NotInstalled? ==>
              Failing(f, r, false, write, true)
              == [B.Fail(f, "the Showcase GitHub App is not installed on that repository")]
    ensures r.NotBuilt? && |r.error| <= 4096 ==>
              Failing(f, r, false, write, true) == [B.Fail(f, "build failed:\n" + r.error)]
    ensures r.NotBuilt? && |r.error| > 4096 ==>
              Failing(f, r, false, write, true) == [B.Fail(f, "build failed:\n…" + r.error[|r.error| - 4096..])]
  {
    if r.NotBuilt? && |r.error| > 4096 {
      var tail := r.error[|r.error| - 4096..];
      assert "build failed:\n" + ("…" + tail) == "build failed:\n…" + tail;
    }
  }

  /** A step of someone else than build f, in a process that stays up. */
  predicate Foreign(f: nat, a: B.Action)
  {
    match a
    case Crash => false
    case Read(g, _, _) => g != f
    case GiveUp(g) => g != f
    case Begin(g) => g != f
    case Succeed(g, _, _, _) => g != f
    case Doubt(g, _, _, _) => g != f
    case Fail(g, _) => g != f
    case Lose(g) => g != f
    case _ => true
  }

  /** What others do while build f settles. */
  ghost predicate Meanwhile(t: B.Timing, mach: B.Machine, f: nat, others: seq<B.Action>)
  {
    B.Runs(t, mach, others) && forall i :: 0 <= i < |others| ==> Foreign(f, others[i])
  }

  /** others may follow what build f did first, and leave the table as meanwhile. */
  ghost predicate Interleaved(t: B.Timing, mach: B.Machine, f: nat, first: seq<B.Action>, others: seq<B.Action>,
                              meanwhile: P.Rows)
  {
    B.Runs(t, mach, first) ==>
      var v := B.After(t, mach, first);
      Meanwhile(t, v, f, others) && B.After(t, v, others).rows == meanwhile
  }

  /** The steps from the end of a build to the end of its flight. */
  function Settling(f: nat, r: Result, headline: string, cancelled: bool, write: Write, fails: bool,
                    others: seq<B.Action>): seq<B.Action>
  {
    Publishing(f, r, headline, write)
      + if Finished(r, write) then [] else others + Failing(f, r, cancelled, write, fails)
  }

  lemma {:induction false} StaysInFlight(t: B.Timing, mach: B.Machine, f: nat, others: seq<B.Action>)
    requires Meanwhile(t, mach, f, others) && f in mach.flights && mach.flights[f].Running?
    ensures var v := B.After(t, mach, others); f in v.flights && v.flights[f] == mach.flights[f]
    decreases |others|
  {
    if others != [] {
      StaysByOne(t, mach, f, others[0]);
      assert forall i :: 0 <= i < |others[1..]| ==> others[1..][i] == others[i + 1];
      StaysInFlight(t, B.Apply(t, mach, others[0]), f, others[1..]);
    }
  }

  lemma StaysByOne(t: B.Timing, mach: B.Machine, f: nat, a: B.Action)
    requires B.Enabled(t, mach, a) && Foreign(f, a) && f in mach.flights && mach.flights[f].Running?
    ensures var v := B.Apply(t, mach, a); f in v.flights && v.flights[f] == mach.flights[f]
  {
  }

  class Publisher {
    const store: P.Store
    var cancelled: bool
    var inflight: nat

    constructor (store: P.Store)
      ensures this.store == store && !cancelled && inflight == 0
    {
      this.store, cancelled, inflight := store, false, 0;
    }

    method Start()
      modifies this
      ensures inflight == old(inflight) + 1 && cancelled == old(cancelled)
    {
      inflight := inflight + 1;
    }

    /** The first half of Shutdown. */
    method Cancel()
      modifies this
      ensures cancelled && inflight == old(inflight)
    {
      cancelled := true;
    }

    /** The end of a build whose flight is f: its statements are steps of the machine, with
        whatever others do before the failure statement; then the flight is over. A build that
        finds itself cancelled leaves the row 'building' for the sweep; a cancellation after it
        looked does not keep it from writing its failure. meanwhile is the table that others
        leave, cancels whether they cancel. */
    method Settle(owner: int, id: string, m: Manifest, r: Result, write: Write, fails: bool, meanwhile: P.Rows,
                  cancels: bool, ghost t: B.Timing, ghost mach: B.Machine, ghost f: nat, ghost others: seq<B.Action>)
      returns (headline: string)
      requires inflight > 0 && mach.rows == store.rows && f in mach.flights
      requires mach.flights[f].Running? && mach.flights[f].owner == owner && mach.flights[f].id == id
      requires Interleaved(t, mach, f, Publishing(f, r, Headline(m, r), write), others, meanwhile)
      modifies this, store
      ensures inflight == old(inflight) - 1 && headline == Headline(m, r)
      ensures cancelled == (old(cancelled) || (cancels && !Finished(r, write)))
      ensures var steps := Settling(f, r, headline, old(cancelled), write, fails, others);
              && B.Runs(t, mach, steps) && store.rows == B.After(t, mach, steps).rows
              && f !in B.After(t, mach, steps).flights
    {
      headline := "";
      ghost var v := mach;
      if r.Built? {
        headline := HeadlineCommit(m, r.commits);
        v := PublishStep(owner, id, r, headline, write, t, mach, f);
        if write.Recorded? {
          inflight := inflight - 1;
          return;
        }
      }
      var done := cancelled;
      ghost var x := B.After(t, v, others);
      StaysInFlight(t, v, f, others);
      store.rows, cancelled := meanwhile, cancelled || cancels;
      FailureStep(owner, id, r, done, write, fails, t, x, f);
      B.RunThen(t, v, others, Failing(f, r, done, write, fails));
      B.RunThen(t, mach, Publishing(f, r, headline, write), others + Failing(f, r, done, write, fails));
      inflight := inflight - 1;
    }

    method PublishStep(owner: int, id: string, r: Result, headline: string, write: Write,
                       ghost t: B.Timing, ghost mach: B.Machine, ghost f: nat) returns (ghost v: B.Machine)
      requires r.Built? && mach.rows == store.rows && f in mach.flights
      requires mach.flights[f].Running? && mach.flights[f].owner == owner && mach.flights[f].id == id
      modifies store
      ensures var steps := Publishing(f, r, headline, write);
              B.Runs(t, mach, steps) && v == B.After(t, mach, steps) && store.rows == v.rows
      ensures if write.Recorded? then f !in v.flights else f in v.flights && v.flights[f] == mach.flights[f]
    {
      if !write.Lost? {
        var error := store.PublishProject(owner, id, headline, Some(r.commits));
      }
      v := B.OneStep(t, mach, Publishing(f, r, headline, write));
    }

    method FailureStep(owner: int, id: string, r: Result, done: bool, write: Write, fails: bool,
                       ghost t: B.Timing, ghost mach: B.Machine, ghost f: nat)
      requires !Finished(r, write)
      requires mach.rows == store.rows && f in mach.flights
      requires mach.flights[f].Running? && mach.flights[f].owner == owner && mach.flights[f].id == id
      modifies store
      ensures var steps := Failing(f, r, done, write, fails);
              B.Runs(t, mach, steps) && store.rows == B.After(t, mach, steps).rows
                && f !in B.After(t, mach, steps).flights
    {
      ghost var v := B.OneStep(t, mach, Failing(f, r, done, write, fails));
      var msg := NOT_RECORDED;
      if !r.Built? {
        if done {
          return;
        }
        msg := if r.NotInstalled? then NOT_INSTALLED else "build failed:\n" + LastChars(r.error, 4096);
      }
      if fails {
        var error := store.MarkBuildFailed(owner, id, msg);
      }
    }

    method ReapOnce(t: B.Timing, now: int, ghost mach: B.Machine) returns (n: nat)
      requires mach.rows == store.rows && mach.now == now
      modifies store
      ensures store.rows == B.Swept(t, mach).rows
    {
      n := store.ReclaimStuckBuilds(t.perService, t.grace, now);
    }
  }
}
