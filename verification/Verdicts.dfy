/** What the reaper's verdicts mean over whole histories of scans (internal/session/reaper.go).
    The clocks only remember a few times; each verdict is shown equivalent to a statement
    about everything the scans saw of the Session since it was first tracked. */
module Verdicts {
  import opened Text
  import R = Registry
  import opened Reaper

  /** One scan of one Session: the state its route was in, and what the scan learned. */
  datatype Sight = Sight(state: R.State, seen: Reading)

  /** The clock after the scans of a history, as long as the Session stays tracked. */
  function ClockOver(cfg: Config, h: seq<Sight>): Option<Clock>
  {
    if h == [] then None
    else
      var last := h[|h| - 1];
      ClockAfter(Judge(cfg, last.state, ClockOver(cfg, h[..|h| - 1]), last.seen), last.seen.downOk)
  }

  /** The verdict of the last scan. */
  function VerdictOf(cfg: Config, h: seq<Sight>): Verdict
    requires h != []
  {
    Judge(cfg, h[|h| - 1].state, ClockOver(cfg, h[..|h| - 1]), h[|h| - 1].seen).verdict
  }

  /** The Session stayed tracked by every scan before the last. */
  ghost predicate TrackedSoFar(cfg: Config, h: seq<Sight>)
  {
    forall k :: 0 < k < |h| ==> ClockOver(cfg, h[..k]).Some?
  }

  ghost predicate TimeFlows(h: seq<Sight>)
  {
    forall i, j :: 0 <= i <= j < |h| ==> h[i].seen.now <= h[j].seen.now
  }

  function Span(h: seq<Sight>, i: nat, j: nat): int
    requires i < |h| && j < |h|
  {
    h[j].seen.now - h[i].seen.now
  }

  lemma PrefixOfPrefix(h: seq<Sight>)
    requires h != []
    ensures forall k {:trigger h[..|h| - 1][..k]} :: 0 < k < |h| - 1 ==> h[..|h| - 1][..k] == h[..k]
  {
  }

  lemma Prefixes(cfg: Config, h: seq<Sight>)
    requires h != [] && TrackedSoFar(cfg, h)
    ensures TrackedSoFar(cfg, h[..|h| - 1])
    ensures |h| > 1 ==> ClockOver(cfg, h[..|h| - 1]).Some?
  {
    PrefixOfPrefix(h);
  }

  // ---- The lifetime cap ----

  /** A tracked clock still has the time of the first scan. */
  lemma {:induction false} FirstSeenIsFirst(cfg: Config, h: seq<Sight>)
    requires h != [] && TrackedSoFar(cfg, h) && ClockOver(cfg, h).Some?
    ensures ClockOver(cfg, h).value.firstSeen == h[0].seen.now
  {
    Prefixes(cfg, h);
    if |h| > 1 {
      FirstSeenIsFirst(cfg, h[..|h| - 1]);
      JudgeKeepsFirstSeen(cfg, h[|h| - 1].state, ClockOver(cfg, h[..|h| - 1]).value, h[|h| - 1].seen);
    }
  }

  lemma JudgeKeepsFirstSeen(cfg: Config, state: R.State, c: Clock, seen: Reading)
    ensures Judge(cfg, state, Some(c), seen).clock.firstSeen == c.firstSeen
  {
  }

  ghost predicate PastMaxRuntime(cfg: Config, h: seq<Sight>, k: nat)
    requires k < |h|
  {
    Span(h, 0, k) >= cfg.maxRuntime
  }

  lemma FirstSeenBefore(cfg: Config, h: seq<Sight>)
    requires h != [] && TrackedSoFar(cfg, h)
    ensures |h| > 1 ==>
              ClockOver(cfg, h[..|h| - 1]).Some? && ClockOver(cfg, h[..|h| - 1]).value.firstSeen == h[0].seen.now
  {
    Prefixes(cfg, h);
    if |h| > 1 {
      FirstSeenIsFirst(cfg, h[..|h| - 1]);
    }
  }

  /** The max-runtime verdict falls exactly when a Session that is not terminal has been
      tracked for MaxRuntime: never early, whatever its activity, health or errors. */
  lemma MaxRuntimeIff(cfg: Config, h: seq<Sight>)
    requires h != [] && TrackedSoFar(cfg, h)
    ensures VerdictOf(cfg, h) == MaxRuntime <==>
              !h[|h| - 1].state.Terminal() && PastMaxRuntime(cfg, h, |h| - 1)
  {
    FirstSeenBefore(cfg, h);
  }

  /** Bounded lifetime: with scans at most d apart, a Session that never turns terminal and
      whose teardowns succeed is seen by no scan from t0 + MaxRuntime + d on, whatever its
      activity, health and errors; the first scan at or past MaxRuntime ends it. */
  lemma LifetimeIsBounded(cfg: Config, h: seq<Sight>, d: nat)
    requires h != [] && TrackedSoFar(cfg, h) && cfg.maxRuntime > 0
    requires forall i :: 0 <= i < |h| ==> !h[i].state.Terminal() && h[i].seen.downOk
    requires forall i :: 0 < i < |h| ==> h[i].seen.now - h[i - 1].seen.now <= d
    ensures h[|h| - 1].seen.now < h[0].seen.now + cfg.maxRuntime + d
    ensures PastMaxRuntime(cfg, h, |h| - 1) <==> VerdictOf(cfg, h) == MaxRuntime
    ensures VerdictOf(cfg, h) == MaxRuntime ==> ClockOver(cfg, h).None?
  {
    var k := |h| - 1;
    MaxRuntimeIff(cfg, h);
    if k > 0 {
      Prefixes(cfg, h);
      var before := h[..k];
      MaxRuntimeIff(cfg, before);
      assert before[|before| - 1] == h[k - 1];
      assert !PastMaxRuntime(cfg, before, k - 1);
    }
  }

  /** A boot in flight is only ever torn down for its age: a Booting Session goes by no other
      verdict, and not before MaxRuntime has passed since a scan first saw it. */
  lemma BootingIsOnlyTooOld(cfg: Config, h: seq<Sight>)
    requires h != [] && TrackedSoFar(cfg, h) && h[|h| - 1].state == R.Booting
    ensures VerdictOf(cfg, h).TearsDown() <==> PastMaxRuntime(cfg, h, |h| - 1)
    ensures VerdictOf(cfg, h) in {Keep, MaxRuntime}
  {
    FirstSeenBefore(cfg, h);
  }

  // ---- Lingering failures ----

  /** failedSince is the time of the first terminal scan. */
  lemma {:induction false} FailedSinceAnchor(cfg: Config, h: seq<Sight>) returns (t: nat)
    requires h != [] && TrackedSoFar(cfg, h) && ClockOver(cfg, h).Some?
    ensures var since := ClockOver(cfg, h).value.failedSince;
            if since.None? then forall j :: 0 <= j < |h| ==> !h[j].state.Terminal()
            else t < |h| && h[t].state.Terminal() && since == Some(h[t].seen.now)
                 && forall j :: 0 <= j < t ==> !h[j].state.Terminal()
  {
    var n := |h| - 1;
    Prefixes(cfg, h);
    t := 0;
    if n > 0 {
      t := FailedSinceAnchor(cfg, h[..n]);
    }
    if h[n].state.Terminal() && (n == 0 || ClockOver(cfg, h[..n]).value.failedSince.None?) {
      t := n;
    }
  }

  /** A terminal route goes exactly when FailureLinger has passed since some earlier scan saw
      it terminal; and a terminal scan never tears anything down. */
  lemma LingeredIff(cfg: Config, h: seq<Sight>)
    requires h != [] && TrackedSoFar(cfg, h) && TimeFlows(h)
    ensures VerdictOf(cfg, h) == Lingered <==>
              && h[|h| - 1].state.Terminal()
              && exists j :: 0 <= j < |h| - 1 && h[j].state.Terminal() && Span(h, j, |h| - 1) >= cfg.failureLinger
    ensures h[|h| - 1].state.Terminal() ==> !VerdictOf(cfg, h).TearsDown()
  {
    var n := |h| - 1;
    Prefixes(cfg, h);
    if n > 0 {
      var t := FailedSinceAnchor(cfg, h[..n]);
      assert forall j :: 0 <= j < n ==> h[..n][j] == h[j];
    }
  }

  // ---- Crashes ----

  /** The scan polled the Stack's health. */
  ghost predicate Polled(cfg: Config, h: seq<Sight>, k: int)
  {
    0 <= k < |h| && cfg.checksHealth && h[k].state == R.Live && !PastMaxRuntime(cfg, h, k)
  }

  ghost predicate Sick(cfg: Config, h: seq<Sight>, k: int) { Polled(cfg, h, k) && h[k].seen.health == Unhealthy }

  ghost predicate Well(cfg: Config, h: seq<Sight>, k: int) { Polled(cfg, h, k) && h[k].seen.health == Healthy }

  /** No healthy answer from scan j to scan n. */
  ghost predicate NeverWell(cfg: Config, h: seq<Sight>, j: int, n: int)
  {
    forall m :: j <= m <= n ==> !Well(cfg, h, m)
  }

  /** unhealthySince is the first unhealthy answer since the last healthy one. */
  ghost predicate HealthAnchor(cfg: Config, h: seq<Sight>, since: Option<int>, b: int)
  {
    if since.None? then
      forall j :: Sick(cfg, h, j) ==> !NeverWell(cfg, h, j, |h| - 1)
    else
      && Sick(cfg, h, b) && since == Some(h[b].seen.now) && NeverWell(cfg, h, b, |h| - 1)
      && forall j :: j < b && Sick(cfg, h, j) ==> !NeverWell(cfg, h, j, |h| - 1)
  }

  lemma SightsOfPrefix(cfg: Config, h: seq<Sight>, k: int)
    requires h != [] && k < |h| - 1
    ensures Sick(cfg, h[..|h| - 1], k) <==> Sick(cfg, h, k)
    ensures Well(cfg, h[..|h| - 1], k) <==> Well(cfg, h, k)
  {
  }

  /** How one scan moves unhealthySince. */
  lemma HealthStep(cfg: Config, h: seq<Sight>)
    requires h != [] && TrackedSoFar(cfg, h) && ClockOver(cfg, h).Some?
    ensures var n := |h| - 1;
            var before := if n == 0 then None else ClockOver(cfg, h[..n]).value.unhealthySince;
            (n > 0 ==> ClockOver(cfg, h[..n]).Some?)
            && ClockOver(cfg, h).value.unhealthySince ==
                 if Well(cfg, h, n) then None
                 else if Sick(cfg, h, n) && before.None? then Some(h[n].seen.now)
                 else before
  {
    Prefixes(cfg, h);
    FirstSeenBefore(cfg, h);
  }

  lemma {:induction false} HealthAnchored(cfg: Config, h: seq<Sight>) returns (b: int)
    requires h != [] && TrackedSoFar(cfg, h) && ClockOver(cfg, h).Some?
    ensures HealthAnchor(cfg, h, ClockOver(cfg, h).value.unhealthySince, b)
  {
    var n := |h| - 1;
    Prefixes(cfg, h);
    HealthStep(cfg, h);
    b := n;
    forall k | k < n
      ensures (Sick(cfg, h[..n], k) <==> Sick(cfg, h, k)) && (Well(cfg, h[..n], k) <==> Well(cfg, h, k))
    {
      SightsOfPrefix(cfg, h, k);
    }
    if n > 0 {
      var b0 := HealthAnchored(cfg, h[..n]);
      forall j | j < n && !Well(cfg, h, n) ensures NeverWell(cfg, h, j, n) <==> NeverWell(cfg, h[..n], j, n - 1) {
        if NeverWell(cfg, h, j, n) {
          forall m | j <= m <= n - 1 ensures !Well(cfg, h[..n], m) {}
        }
      }
      if !Well(cfg, h, n) && ClockOver(cfg, h[..n]).value.unhealthySince.Some? {
        b := b0;
      }
    }
  }

  /** The crash verdict falls exactly when the Stack answers unhealthy now and did so at least
      CrashGrace ago, with no healthy answer in between. A failed poll in between neither
      helps nor harms, and a failed poll now never crashes a Session. */
  lemma CrashIff(cfg: Config, h: seq<Sight>)
    requires h != [] && TrackedSoFar(cfg, h) && TimeFlows(h)
    ensures VerdictOf(cfg, h) == Crash <==>
              && Sick(cfg, h, |h| - 1)
              && exists j :: 0 <= j < |h| - 1 && Sick(cfg, h, j) && NeverWell(cfg, h, j, |h| - 1)
                   && Span(h, j, |h| - 1) >= cfg.crashGrace
  {
    var n := |h| - 1;
    Prefixes(cfg, h);
    FirstSeenBefore(cfg, h);
    if n > 0 {
      var since := ClockOver(cfg, h[..n]).value.unhealthySince;
      var b := HealthAnchored(cfg, h[..n]);
      forall k | k < n
        ensures (Sick(cfg, h[..n], k) <==> Sick(cfg, h, k)) && (Well(cfg, h[..n], k) <==> Well(cfg, h, k))
      {
        SightsOfPrefix(cfg, h, k);
      }
      if Sick(cfg, h, n) {
        forall j | 0 <= j < n ensures NeverWell(cfg, h, j, n) <==> NeverWell(cfg, h[..n], j, n - 1) {
          if NeverWell(cfg, h, j, n) {
            forall m | j <= m <= n - 1 ensures !Well(cfg, h[..n], m) {}
          }
        }
        forall j | 0 <= j < n && Sick(cfg, h, j) && NeverWell(cfg, h, j, n) ensures since.Some? && b <= j {
          assert Sick(cfg, h[..n], j) && NeverWell(cfg, h[..n], j, n - 1);
        }
      }
    }
  }

  // ---- Idleness ----

  /** The scan compared the Session's request count with the one it remembered. */
  ghost predicate Counted(cfg: Config, h: seq<Sight>, k: int)
  {
    && 0 <= k < |h| && h[k].state == R.Live && !PastMaxRuntime(cfg, h, k) && h[k].seen.count.Some?
    && VerdictOf(cfg, h[..k + 1]) != Crash
  }

  /** Every comparison from scan j to scan n read the count that scan j did. */
  ghost predicate SameCount(cfg: Config, h: seq<Sight>, j: int, n: int)
    requires 0 <= j <= n < |h|
  {
    forall k :: j <= k <= n && Counted(cfg, h, k) ==> h[k].seen.count == h[j].seen.count
  }

  /** The counts compared by the scans of a history, None where nothing was compared. */
  ghost function Counts(cfg: Config, h: seq<Sight>): (r: seq<Option<nat>>)
    ensures |r| == |h|
    ensures forall k :: 0 <= k < |h| ==> r[k] == if Counted(cfg, h, k) then h[k].seen.count else None
  {
    seq(|h|, k requires 0 <= k < |h| => if Counted(cfg, h, k) then h[k].seen.count else None)
  }

  /** From a on, every comparison read the count c, and a is the first such place. */
  ghost predicate Stands(counts: seq<Option<nat>>, c: Option<nat>, a: int)
  {
    if c.None? then forall k :: 0 <= k < |counts| ==> counts[k].None?
    else
      && 0 <= a < |counts| && counts[a] == c
      && (forall k :: a <= k < |counts| ==> counts[k].None? || counts[k] == c)
      && (forall j :: 0 <= j < a && counts[j].Some? ==> Disturbed(counts, j))
  }

  /** A later comparison read another count than place j did. */
  ghost predicate Disturbed(counts: seq<Option<nat>>, j: int)
    requires 0 <= j < |counts|
  {
    exists k :: j < k < |counts| && counts[k].Some? && counts[k] != counts[j]
  }

  lemma StandsStep(counts: seq<Option<nat>>, c: Option<nat>, a: int, m: Option<nat>)
    requires Stands(counts, c, a)
    ensures Stands(counts + [m], if m.None? then c else m, if m.None? || m == c then a else |counts|)
  {
    var next := counts + [m];
    forall j | 0 <= j < |counts| && Disturbed(counts, j) ensures Disturbed(next, j) {
      var k :| j < k < |counts| && counts[k].Some? && counts[k] != counts[j];
      assert next[k] == counts[k];
    }
    if m.Some? && m != c {
      forall j | 0 <= j < |counts| && counts[j].Some? ensures Disturbed(next, j) {
        if c.None? || j >= a {
          assert next[|counts|] != next[j];
        }
      }
    }
  }

  lemma CountedInPrefix(cfg: Config, h: seq<Sight>, k: int)
    requires h != [] && k < |h| - 1
    ensures Counted(cfg, h[..|h| - 1], k) <==> Counted(cfg, h, k)
  {
    if 0 <= k {
      assert h[..|h| - 1][..k + 1] == h[..k + 1];
    }
  }

  /** How one scan moves the activity fields. */
  lemma ActivityStep(cfg: Config, h: seq<Sight>)
    requires h != [] && TrackedSoFar(cfg, h) && ClockOver(cfg, h).Some?
    ensures var n, after := |h| - 1, ClockOver(cfg, h).value;
            (n > 0 ==> ClockOver(cfg, h[..n]).Some?)
            && var before := if n == 0 then NewClock(h[0].seen.now) else ClockOver(cfg, h[..n]).value;
            if !Counted(cfg, h, n) then
              after.seenCount == before.seenCount && after.lastCount == before.lastCount
                && after.lastActive == before.lastActive
            else
              && after.seenCount && Some(after.lastCount) == h[n].seen.count
              && after.lastActive == if before.seenCount && before.lastCount == after.lastCount then before.lastActive
                else h[n].seen.now
  {
    Prefixes(cfg, h);
    FirstSeenBefore(cfg, h);
    assert h[..|h|] == h;
  }

  lemma CountsOfPrefix(cfg: Config, h: seq<Sight>)
    requires h != []
    ensures Counts(cfg, h) == Counts(cfg, h[..|h| - 1]) + [Counts(cfg, h)[|h| - 1]]
  {
    forall k | k < |h| - 1 ensures Counted(cfg, h[..|h| - 1], k) <==> Counted(cfg, h, k) { CountedInPrefix(cfg, h, k); }
  }

  function Remembered(c: Clock): Option<nat> { if c.seenCount then Some(c.lastCount) else None }

  /** The clock's count and lastActive are those of the place where the last count settled. */
  lemma {:induction false} ActivityAnchored(cfg: Config, h: seq<Sight>) returns (a: int)
    requires h != [] && TrackedSoFar(cfg, h) && ClockOver(cfg, h).Some?
    ensures var c := ClockOver(cfg, h).value;
            Stands(Counts(cfg, h), Remembered(c), a) && (c.seenCount ==> c.lastActive == h[a].seen.now)
  {
    var n := |h| - 1;
    Prefixes(cfg, h);
    ActivityStep(cfg, h);
    CountsOfPrefix(cfg, h);
    var m := Counts(cfg, h)[n];
    if n == 0 {
      a := 0;
      StandsStep(Counts(cfg, h[..n]), None, 0, m);
    } else {
      var c := Remembered(ClockOver(cfg, h[..n]).value);
      var a0 := ActivityAnchored(cfg, h[..n]);
      StandsStep(Counts(cfg, h[..n]), c, a0, m);
      a := if m.None? || m == c then a0 else n;
    }
  }

  /** How the idle verdict reads the clock. */
  lemma IdleStep(cfg: Config, h: seq<Sight>)
    requires |h| > 1 && TrackedSoFar(cfg, h)
    ensures ClockOver(cfg, h[..|h| - 1]).Some?
    ensures var n := |h| - 1;
            var c := ClockOver(cfg, h[..n]).value;
            VerdictOf(cfg, h) == Idle <==>
              Counted(cfg, h, n) && h[n].seen.count == Remembered(c) && h[n].seen.now - c.lastActive >= cfg.idle
  {
    FirstSeenBefore(cfg, h);
    assert h[..|h|] == h;
  }

  lemma NeverIdleAtFirst(cfg: Config, h: seq<Sight>)
    requires |h| == 1
    ensures VerdictOf(cfg, h) != Idle
  {
  }

  /** What has stood from some place on is what every place since has read. */
  lemma StandsMeans(counts: seq<Option<nat>>, c: Option<nat>, a: int, j: int)
    requires Stands(counts, c, a) && 0 <= j < |counts| && counts[j].Some?
    ensures c.Some?
            && (j >= a ==>
                  counts[j] == c && forall k :: j <= k < |counts| ==> counts[k].None? || counts[k] == counts[j])
    ensures j < a ==> Disturbed(counts, j)
  {
  }

  /** The idle verdict falls exactly when the count is compared now and was compared at least
      Idle ago, and every comparison in between read the same count. A failed scrape is no
      comparison: it neither reaps a Session nor resets its clock. */
  lemma IdleIff(cfg: Config, h: seq<Sight>)
    requires h != [] && TrackedSoFar(cfg, h) && TimeFlows(h)
    ensures VerdictOf(cfg, h) == Idle <==>
              && Counted(cfg, h, |h| - 1)
              && exists j :: 0 <= j < |h| - 1 && Counted(cfg, h, j) && SameCount(cfg, h, j, |h| - 1)
                   && Span(h, j, |h| - 1) >= cfg.idle
  {
    var n := |h| - 1;
    if n == 0 {
      NeverIdleAtFirst(cfg, h);
    } else {
      Prefixes(cfg, h);
      IdleStep(cfg, h);
      var c := ClockOver(cfg, h[..n]).value;
      var a := ActivityAnchored(cfg, h[..n]);
      CountsOfPrefix(cfg, h);
      if VerdictOf(cfg, h) == Idle {
        IdleReached(cfg, h, c, a);
      }
      if j :|
        && 0 <= j < n && Counted(cfg, h, n) && Counted(cfg, h, j)
        && SameCount(cfg, h, j, n) && Span(h, j, n) >= cfg.idle
      {
        IdleDeserved(cfg, h, c, a, j);
      }
    }
  }

  lemma IdleReached(cfg: Config, h: seq<Sight>, c: Clock, a: int)
    requires |h| > 1 && Counted(cfg, h, |h| - 1) && h[|h| - 1].seen.count == Remembered(c)
    requires Stands(Counts(cfg, h[..|h| - 1]), Remembered(c), a) && (c.seenCount ==> c.lastActive == h[a].seen.now)
    ensures 0 <= a < |h| - 1 && Counted(cfg, h, a) && SameCount(cfg, h, a, |h| - 1) && c.lastActive == h[a].seen.now
  {
    var n := |h| - 1;
    CountsOfPrefix(cfg, h);
    var counts := Counts(cfg, h);
    assert forall k :: 0 <= k < n ==> counts[k] == Counts(cfg, h[..n])[k];
    forall k | a <= k <= n && Counted(cfg, h, k) ensures h[k].seen.count == h[a].seen.count {
      assert counts[k] == h[k].seen.count;
    }
  }

  lemma IdleDeserved(cfg: Config, h: seq<Sight>, c: Clock, a: int, j: int)
    requires |h| > 1 && TimeFlows(h) && Counted(cfg, h, |h| - 1)
    requires Stands(Counts(cfg, h[..|h| - 1]), Remembered(c), a) && (c.seenCount ==> c.lastActive == h[a].seen.now)
    requires 0 <= j < |h| - 1 && Counted(cfg, h, j) && SameCount(cfg, h, j, |h| - 1)
    ensures c.seenCount && h[|h| - 1].seen.count == Remembered(c)
            && Span(h, j, |h| - 1) <= h[|h| - 1].seen.now - c.lastActive
  {
    var n := |h| - 1;
    CountsOfPrefix(cfg, h);
    var counts := Counts(cfg, h[..n]);
    assert forall k :: 0 <= k < n ==> counts[k] == Counts(cfg, h)[k];
    StandsMeans(counts, Remembered(c), a, j);
    forall k | j < k < n && counts[k].Some? ensures counts[k] == counts[j] {
      assert Counted(cfg, h, k);
    }
  }

  // ---- The reaper's own clocks are these ----

  /** One tick: the registry as it found it, which others may have changed since the last,
      and what it learned. */
  datatype Tick = Tick(routes: R.Routes, scan: Scan)

  /** All the clocks after some ticks, as Reaper.Tick leaves them. */
  function ClocksFrom(cfg: Config, clocks: map<string, Clock>, ticks: seq<Tick>): map<string, Clock>
  {
    if ticks == [] then clocks
    else
      var last := ticks[|ticks| - 1];
      ClocksAfterScan(cfg, last.routes, ClocksFrom(cfg, clocks, ticks[..|ticks| - 1]), last.scan)
  }

  function SightsOf(ticks: seq<Tick>, id: string): (h: seq<Sight>)
    requires forall i :: 0 <= i < |ticks| ==> id in ticks[i].routes
    ensures |h| == |ticks|
  {
    seq(|ticks|, i requires 0 <= i < |ticks| => Sight(ticks[i].routes[id].state, ticks[i].scan.For(id)))
  }

  /** While a Session's route is there, its clock in the reaper is the clock over its own
      history: no other Session, and no map order, has a part in it. */
  lemma {:induction false} ClockIsOverItsHistory(cfg: Config, clocks: map<string, Clock>, ticks: seq<Tick>, id: string)
    requires id !in clocks && forall i :: 0 <= i < |ticks| ==> id in ticks[i].routes
    ensures Tracked(ClocksFrom(cfg, clocks, ticks), id) == ClockOver(cfg, SightsOf(ticks, id))
  {
    if ticks != [] {
      var init := ticks[..|ticks| - 1];
      ClockIsOverItsHistory(cfg, clocks, init, id);
      assert SightsOf(ticks, id)[..|ticks| - 1] == SightsOf(init, id);
    }
  }

  // ---- Sessions nobody requests ----

  /** No sample of the Session in any scrape that worked. */
  ghost predicate NeverRequested(ticks: seq<Tick>, id: string)
  {
    forall i :: 0 <= i < |ticks| && ticks[i].scan.counts.Some? ==> id !in ticks[i].scan.counts.value
  }

  /** Its route was there and Live at every tick, in order of time, and never found unhealthy. */
  ghost predicate LiveAndWell(cfg: Config, ticks: seq<Tick>, id: string)
  {
    && (forall i :: 0 <= i < |ticks| ==> id in ticks[i].routes && ticks[i].routes[id].state == R.Live)
    && (forall i :: 0 <= i < |ticks| && cfg.checksHealth ==> ticks[i].scan.health(id) != Unhealthy)
    && forall i, j :: 0 <= i <= j < |ticks| ==> ticks[i].scan.now <= ticks[j].scan.now
  }

  /** The tick tears the Session down as idle: the call is made, and if it works the route goes. */
  ghost predicate IdledBy(cfg: Config, clocks: map<string, Clock>, ticks: seq<Tick>, id: string, k: nat)
    requires k < |ticks| && id in ticks[k].routes
  {
    var t, before := ticks[k], ClocksFrom(cfg, clocks, ticks[..k]);
    && Verdicts(cfg, t.routes, before, t.scan, id).verdict == Idle
    && (forall made :: CallsMade(cfg, t.routes, before, t.scan, t.routes.Keys, made) ==> id in made)
    && (t.scan.down(id) ==> id !in RoutesAfterScan(cfg, t.routes, before, t.scan))
  }

  /** A Live Session that no successful scrape has a sample of is torn down as idle by the time
      two successful scrapes are Idle apart, if MaxRuntime has not come by then. */
  lemma UnrequestedIsReaped(cfg: Config, clocks: map<string, Clock>, ticks: seq<Tick>, id: string, j: nat)
    returns (k: nat)
    requires j < |ticks| - 1 && id !in clocks && NeverRequested(ticks, id) && LiveAndWell(cfg, ticks, id)
    requires ticks[j].scan.counts.Some? && ticks[|ticks| - 1].scan.counts.Some?
    requires ticks[|ticks| - 1].scan.now - ticks[j].scan.now >= cfg.idle
    requires ticks[|ticks| - 1].scan.now - ticks[0].scan.now < cfg.maxRuntime
    ensures k < |ticks| && id in ticks[k].routes && IdledBy(cfg, clocks, ticks, id, k)
  {
    k := IdleVerdictFalls(cfg, ticks, id, SightsOf(ticks, id), j);
    hide VerdictOf, IdledBy, NeverRequested, SightsOf;
    IdleVerdictIdles(cfg, clocks, ticks, id, k);
  }

  lemma IdleVerdictFalls(cfg: Config, ticks: seq<Tick>, id: string, h: seq<Sight>, j: nat) returns (k: nat)
    requires j < |ticks| - 1 && NeverRequested(ticks, id) && LiveAndWell(cfg, ticks, id) && h == SightsOf(ticks, id)
    requires ticks[j].scan.counts.Some? && ticks[|ticks| - 1].scan.counts.Some?
    requires ticks[|ticks| - 1].scan.now - ticks[j].scan.now >= cfg.idle
    requires ticks[|ticks| - 1].scan.now - ticks[0].scan.now < cfg.maxRuntime
    ensures k < |ticks| && VerdictOf(cfg, h[..k + 1]) == Idle
  {
    hide SightsOf, VerdictOf, ClockOver, Steady, TrackedSoFar, LiveAndWell, NeverRequested;
    if TrackedSoFar(cfg, h) {
      k := |ticks| - 1;
      UnrequestedIsSteady(cfg, ticks, id, h, j);
      SteadyIsIdle(cfg, h, j);
      WholeVerdict(cfg, h);
    } else {
      k := FirstDropped(cfg, h);
      DroppedByIdle(cfg, ticks, id, h, k);
    }
  }

  lemma WholeVerdict(cfg: Config, h: seq<Sight>)
    requires h != []
    ensures VerdictOf(cfg, h[..|h|]) == VerdictOf(cfg, h)
  {
    assert h[..|h|] == h;
  }

  /** In order of time, two comparisons Idle apart, the last scan's the later one, and all that
      are made read 0. */
  ghost predicate Steady(cfg: Config, h: seq<Sight>, j: nat)
  {
    && j < |h| - 1 && TimeFlows(h) && Span(h, j, |h| - 1) >= cfg.idle
    && Counted(cfg, h, j) && Counted(cfg, h, |h| - 1)
    && forall k :: Counted(cfg, h, k) ==> h[k].seen.count == Some(0)
  }

  lemma SteadyIsIdle(cfg: Config, h: seq<Sight>, j: nat)
    requires TrackedSoFar(cfg, h) && Steady(cfg, h, j)
    ensures VerdictOf(cfg, h) == Idle
  {
    IdleIff(cfg, h);
    hide Counted, VerdictOf, TrackedSoFar;
    assert SameCount(cfg, h, j, |h| - 1);
  }

  /** The verdict over the Session's history is what Tick carries out. */
  lemma IdleVerdictIdles(cfg: Config, clocks: map<string, Clock>, ticks: seq<Tick>, id: string, k: nat)
    requires k < |ticks| && id !in clocks && forall i :: 0 <= i < |ticks| ==> id in ticks[i].routes
    requires VerdictOf(cfg, SightsOf(ticks, id)[..k + 1]) == Idle
    ensures IdledBy(cfg, clocks, ticks, id, k)
  {
    var h := SightsOf(ticks, id);
    ClockIsOverItsHistory(cfg, clocks, ticks[..k], id);
    assert SightsOf(ticks[..k], id) == h[..k];
    assert h[..k + 1][..k] == h[..k] && h[..k + 1][k] == h[k];
    hide Judge, ClocksFrom, ClockOver;
  }

  /** Every successful scrape is a comparison, and reads 0. */
  lemma UnrequestedIsSteady(cfg: Config, ticks: seq<Tick>, id: string, h: seq<Sight>, j: nat)
    requires j < |ticks| - 1 && NeverRequested(ticks, id) && LiveAndWell(cfg, ticks, id) && h == SightsOf(ticks, id)
    requires ticks[j].scan.counts.Some? && ticks[|ticks| - 1].scan.counts.Some?
    requires ticks[|ticks| - 1].scan.now - ticks[j].scan.now >= cfg.idle
    requires ticks[|ticks| - 1].scan.now - ticks[0].scan.now < cfg.maxRuntime
    ensures Steady(cfg, h, j)
  {
    hide Counted, LiveAndWell, NeverRequested, VerdictOf;
    forall k | 0 <= k < |ticks|
      ensures Counted(cfg, h, k) <==> ticks[k].scan.counts.Some?
      ensures ticks[k].scan.counts.Some? ==> h[k].seen.count == Some(0)
    {
      UnrequestedScan(cfg, ticks, id, h, k);
    }
    forall k | Counted(cfg, h, k) ensures 0 <= k < |h| { CountedIsAScan(cfg, h, k); }
    InTimeOrder(cfg, ticks, id, h);
    hide SightsOf, TimeFlows;
  }

  lemma InTimeOrder(cfg: Config, ticks: seq<Tick>, id: string, h: seq<Sight>)
    requires LiveAndWell(cfg, ticks, id) && h == SightsOf(ticks, id)
    ensures TimeFlows(h) && forall k :: 0 <= k < |ticks| ==> h[k].seen.now == ticks[k].scan.now
  {
  }

  lemma CountedIsAScan(cfg: Config, h: seq<Sight>, k: int)
    requires Counted(cfg, h, k)
    ensures 0 <= k < |h|
  {
  }

  lemma UnrequestedScan(cfg: Config, ticks: seq<Tick>, id: string, h: seq<Sight>, k: nat)
    requires k < |ticks| && NeverRequested(ticks, id) && LiveAndWell(cfg, ticks, id) && h == SightsOf(ticks, id)
    requires ticks[|ticks| - 1].scan.now - ticks[0].scan.now < cfg.maxRuntime
    ensures Counted(cfg, h, k) <==> ticks[k].scan.counts.Some?
    ensures ticks[k].scan.counts.Some? ==> h[k].seen.count == Some(0)
  {
    assert h[k].seen == ticks[k].scan.For(id);
    NeverCrashed(cfg, h[..k + 1]);
    hide VerdictOf;
  }

  lemma NeverCrashed(cfg: Config, h: seq<Sight>)
    requires h != [] && (cfg.checksHealth ==> h[|h| - 1].seen.health != Unhealthy)
    ensures VerdictOf(cfg, h) != Crash
  {
  }

  /** The first scan after which the Session was no longer tracked. */
  lemma {:induction false} FirstDropped(cfg: Config, h: seq<Sight>) returns (k: nat)
    requires !TrackedSoFar(cfg, h)
    ensures k < |h| - 1 && ClockOver(cfg, h[..k + 1]).None? && TrackedSoFar(cfg, h[..k + 1])
  {
    var m :| 0 < m < |h| && ClockOver(cfg, h[..m]).None?;
    if TrackedSoFar(cfg, h[..m]) {
      k := m - 1;
    } else {
      k := FirstDropped(cfg, h[..m]);
      assert h[..m][..k + 1] == h[..k + 1];
    }
  }

  lemma DroppedByIdle(cfg: Config, ticks: seq<Tick>, id: string, h: seq<Sight>, k: nat)
    requires k < |ticks| - 1 && LiveAndWell(cfg, ticks, id) && h == SightsOf(ticks, id)
    requires ticks[|ticks| - 1].scan.now - ticks[0].scan.now < cfg.maxRuntime
    requires ClockOver(cfg, h[..k + 1]).None? && TrackedSoFar(cfg, h[..k + 1])
    ensures VerdictOf(cfg, h[..k + 1]) == Idle
  {
    MaxRuntimeIff(cfg, h[..k + 1]);
  }
}
