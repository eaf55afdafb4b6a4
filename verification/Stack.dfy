/** What a compiled plan promises: its service names, its dependency graph, its networks,
    and what any startup that respects depends_on can and cannot do. */
module Stack {
  import opened Text
  import opened Manifest
  import opened Compile

  ghost predicate DistinctSpecs(specs: seq<ServiceSpec>)
  {
    forall i, j :: 0 <= i < j < |specs| ==> specs[i].name != specs[j].name
  }

  /** The services the platform adds, before the Owner's. */
  function PlatformPart(m: Manifest, opts: Options): seq<ServiceSpec>
    requires Compilable(m, opts)
  {
    EgressPart(m, opts) + DbPart(m, opts) + SeedPart(m, opts)
  }

  lemma PlatformNames(m: Manifest, opts: Options)
    requires Compilable(m, opts)
    ensures DistinctSpecs(PlatformPart(m, opts))
    ensures forall s :: s in PlatformPart(m, opts) ==> s.name in RESERVED_SERVICES
  {
    var e, d, s := EgressPart(m, opts), DbPart(m, opts), SeedPart(m, opts);
    assert OnlyNamed(e, EGRESS_SERVICE) && OnlyNamed(d, DB_SERVICE) && OnlyNamed(s, SEED_SERVICE);
    hide EgressPart, DbPart, SeedPart;
    DistinctApart(e, d);
    DistinctApart(e + d, s);
  }

  predicate OnlyNamed(part: seq<ServiceSpec>, name: string)
  {
    |part| <= 1 && forall s :: s in part ==> s.name == name
  }

  lemma AppNames(m: Manifest, opts: Options)
    requires Compilable(m, opts)
    ensures DistinctSpecs(AppPart(m, opts))
    ensures forall s :: s in AppPart(m, opts) ==> s.name !in RESERVED_SERVICES
  {
    var apps := AppPart(m, opts);
    forall i | 0 <= i < |apps| ensures apps[i].name == m.services[i].name && apps[i].name !in RESERVED_SERVICES {
      assert ServiceContract(m.services[i]);
    }
  }

  lemma DistinctApart(a: seq<ServiceSpec>, b: seq<ServiceSpec>)
    requires DistinctSpecs(a) && DistinctSpecs(b)
    requires forall s, t :: s in a && t in b ==> s.name != t.name
    ensures DistinctSpecs(a + b)
  {
    forall i, j | 0 <= i < j < |a + b| ensures (a + b)[i].name != (a + b)[j].name {
      if i < |a| <= j {
        assert a[i] in a && b[j - |a|] in b;
      }
    }
  }

  /** No two services of a plan share a name: Owner names are distinct and unreserved. */
  lemma PlanNamesDistinct(m: Manifest, opts: Options)
    requires Compilable(m, opts)
    ensures DistinctSpecs(PlanOf(m, opts).services)
  {
    PlatformNames(m, opts);
    AppNames(m, opts);
    DistinctApart(PlatformPart(m, opts), AppPart(m, opts));
  }

  /** AppServices gives back the Owner's services, in the manifest's order. */
  method AppServices(m: Manifest, opts: Options, plan: Plan) returns (out: seq<ServiceSpec>)
    requires Compilable(m, opts) && plan == PlanOf(m, opts)
    ensures out == AppPart(m, opts)
  {
    PlatformNames(m, opts);
    AppNames(m, opts);
    out := DropReserved(plan.services, PlatformPart(m, opts), AppPart(m, opts));
  }

  method DropReserved(services: seq<ServiceSpec>, ghost before: seq<ServiceSpec>, ghost apps: seq<ServiceSpec>)
    returns (out: seq<ServiceSpec>)
    requires services == before + apps
    requires forall s :: s in before ==> s.name in RESERVED_SERVICES
    requires forall s :: s in apps ==> s.name !in RESERVED_SERVICES
    ensures out == apps
  {
    out := [];
    for i := 0 to |services|
      invariant out == if i <= |before| then [] else apps[..i - |before|]
    {
      var s := services[i];
      if i < |before| {
        assert s == before[i];
      } else {
        assert s == apps[i - |before|];
      }
      if s.name == DB_SERVICE || s.name == SEED_SERVICE || s.name == EGRESS_SERVICE {
        continue;
      }
      out := out + [s];
    }
  }

  /** Each service of a plan is one of the three platform services or an app. */
  lemma SpecCases(m: Manifest, opts: Options, s: ServiceSpec) returns (k: nat)
    requires Compilable(m, opts) && s in PlanOf(m, opts).services
    ensures s in EgressPart(m, opts) || s in DbPart(m, opts) || s in SeedPart(m, opts)
         || (k < |m.services| && s == AppService(m, opts, m.services[k]) && s.name !in RESERVED_SERVICES)
  {
    k := 0;
    if s !in PlatformPart(m, opts) {
      AppNames(m, opts);
      k :| 0 <= k < |m.services| && AppPart(m, opts)[k] == s;
    }
  }

  // ---- Dependencies ----

  /** Every dependency names a service that stands strictly earlier. */
  ghost predicate DependsEarlier(specs: seq<ServiceSpec>)
  {
    forall i, d :: 0 <= i < |specs| && d in specs[i].dependsOn ==> exists j :: 0 <= j < i && specs[j].name == d
  }

  lemma PlanDependsEarlier(m: Manifest, opts: Options)
    requires Compilable(m, opts)
    ensures DependsEarlier(PlanOf(m, opts).services)
  {
    var all := PlanOf(m, opts).services;
    forall i, x | 0 <= i < |all| && x in all[i].dependsOn ensures exists j :: 0 <= j < i && all[j].name == x {
      var j := EarlierPlace(m, opts, i, x);
    }
  }

  lemma EarlierPlace(m: Manifest, opts: Options, i: nat, x: string) returns (j: nat)
    requires Compilable(m, opts)
    requires i < |PlanOf(m, opts).services| && x in PlanOf(m, opts).services[i].dependsOn
    ensures j < i && PlanOf(m, opts).services[j].name == x
  {
    PlatformWaits(m, opts);
    AppsWait(m, opts);
    hide EgressPart, DbPart, SeedPart, AppPart;
    j := EarlierAmong(EgressPart(m, opts), DbPart(m, opts), SeedPart(m, opts), AppPart(m, opts), AppDeps(m), i, x);
  }

  lemma PlatformWaits(m: Manifest, opts: Options)
    requires Compilable(m, opts)
    ensures forall t :: t in EgressPart(m, opts) ==> t.dependsOn == map[]
    ensures var d := DbPart(m, opts);
            |d| == (if m.db.Some? then 1 else 0) && forall t :: t in d ==> t.dependsOn == map[] && t.name == DB_SERVICE
    ensures var s := SeedPart(m, opts);
            && |s| == (if m.seed.Some? then 1 else 0)
            && (s != [] ==> m.db.Some? && s[0].name == SEED_SERVICE && s[0].dependsOn == map[DB_SERVICE := Healthy])
  {
  }

  lemma AppsWait(m: Manifest, opts: Options)
    requires Compilable(m, opts)
    ensures forall t :: t in AppPart(m, opts) ==> t.dependsOn == AppDeps(m)
  {
  }

  /** The sidecar and the db wait for nothing, the seed for the db, the apps for the seed or
      else the db. */
  lemma EarlierAmong(e: seq<ServiceSpec>, d: seq<ServiceSpec>, s: seq<ServiceSpec>, p: seq<ServiceSpec>,
                     deps: map<string, Condition>, i: nat, x: string) returns (j: nat)
    requires (forall t :: t in e ==> t.dependsOn == map[]) && (forall t :: t in d ==> t.dependsOn == map[])
    requires |d| <= 1 && (d != [] ==> d[0].name == DB_SERVICE)
    requires |s| <= 1
             && (s != [] ==> d != [] && s[0].name == SEED_SERVICE && s[0].dependsOn == map[DB_SERVICE := Healthy])
    requires forall t :: t in p ==> t.dependsOn == deps
    requires deps == if s != [] then map[SEED_SERVICE := Completed] else if d != [] then map[DB_SERVICE := Healthy]
             else map[]
    requires i < |e + d + s + p| && x in (e + d + s + p)[i].dependsOn
    ensures j < i && (e + d + s + p)[j].name == x
  {
    PlaceIn(e, d, s, p, i);
    j := if i >= |e| + |d| + |s| && s != [] then |e| + |d| else |e|;
    PlaceIn(e, d, s, p, j);
  }

  lemma PlaceIn<T>(a: seq<T>, b: seq<T>, c: seq<T>, d: seq<T>, i: nat)
    requires i < |a| + |b| + |c| + |d|
    ensures (a + b + c + d)[i] ==
              if i < |a| then a[i]
              else if i < |a| + |b| then b[i - |a|]
              else if i < |a| + |b| + |c| then c[i - |a| - |b|]
              else d[i - |a| - |b| - |c|]
  {
  }

  datatype Event = Started(name: string) | BecameHealthy(name: string) | Exited(name: string)

  function Satisfies(d: string, c: Condition): Event
  {
    match c case Healthy => BecameHealthy(d) case Completed => Exited(d)
  }

  ghost predicate MayHappen(specs: seq<ServiceSpec>, before: seq<Event>, e: Event)
  {
    match e
    case Started(n) =>
      exists s :: s in specs && s.name == n && forall d :: d in s.dependsOn ==> Satisfies(d, s.dependsOn[d]) in before
    case BecameHealthy(n) => Started(n) in before
    case Exited(n) => Started(n) in before
  }

  /** A startup in which no service starts before its depends_on conditions hold. */
  ghost predicate Admissible(specs: seq<ServiceSpec>, log: seq<Event>)
  {
    forall k :: 0 <= k < |log| ==> MayHappen(specs, log[..k], log[k])
  }

  /** A service that started has each of its conditions behind it. */
  lemma StartHasConditions(all: seq<ServiceSpec>, log: seq<Event>, k: nat, s: ServiceSpec, d: string) returns (j: nat)
    requires DistinctSpecs(all) && Admissible(all, log) && s in all && d in s.dependsOn
    requires k < |log| && log[k] == Started(s.name)
    ensures j < k && log[j] == Satisfies(d, s.dependsOn[d])
  {
    assert MayHappen(all, log[..k], log[k]);
    OnlySpecOf(all, s);
    j :| 0 <= j < k && log[j] == Satisfies(d, s.dependsOn[d]);
  }

  lemma ExitHasStart(all: seq<ServiceSpec>, log: seq<Event>, k: nat, name: string) returns (j: nat)
    requires Admissible(all, log) && k < |log| && log[k] == Exited(name)
    ensures j < k && log[j] == Started(name)
  {
    assert MayHappen(all, log[..k], log[k]);
    j :| 0 <= j < k && log[j] == Started(name);
  }

  /** In any startup, an app that starts has the seed completed behind it, and behind that
      (or directly behind it, without a seed) a healthy database. */
  lemma AppsWaitForTheirData(m: Manifest, opts: Options, log: seq<Event>, k: nat, i: nat)
    requires Compilable(m, opts) && Admissible(PlanOf(m, opts).services, log)
    requires i < |m.services| && k < |log| && log[k] == Started(m.services[i].name)
    ensures m.seed.Some? ==>
              exists b, a :: 0 <= a < b < k && log[b] == Exited(SEED_SERVICE) && log[a] == BecameHealthy(DB_SERVICE)
    ensures m.db.Some? ==> exists a :: 0 <= a < k && log[a] == BecameHealthy(DB_SERVICE)
  {
    var all, app := PlanOf(m, opts).services, AppService(m, opts, m.services[i]);
    PlanNamesDistinct(m, opts);
    assert app == AppPart(m, opts)[i];
    if m.seed.Some? {
      var seed := SeedPart(m, opts)[0];
      assert seed in SeedPart(m, opts);
      var b := StartHasConditions(all, log, k, app, SEED_SERVICE);
      var s := ExitHasStart(all, log, b, SEED_SERVICE);
      var a := StartHasConditions(all, log, s, seed, DB_SERVICE);
    } else if m.db.Some? {
      var a := StartHasConditions(all, log, k, app, DB_SERVICE);
    }
  }

  lemma OnlySpecOf(all: seq<ServiceSpec>, s: ServiceSpec)
    requires DistinctSpecs(all) && s in all
    ensures forall t :: t in all && t.name == s.name ==> t == s
  {
  }

  /** Starting the first n services in order, each to the end before the next. */
  function InOrder(all: seq<ServiceSpec>, n: nat): seq<Event>
    requires n <= |all|
  {
    if n == 0 then []
    else InOrder(all, n - 1) + [Started(all[n - 1].name), BecameHealthy(all[n - 1].name), Exited(all[n - 1].name)]
  }

  ghost predicate ReachesAll(specs: seq<ServiceSpec>, log: seq<Event>)
  {
    forall i :: 0 <= i < |specs| ==>
      Started(specs[i].name) in log && BecameHealthy(specs[i].name) in log && Exited(specs[i].name) in log
  }

  /** Dependencies that point backwards can be started: the order of the list works, and
      reaches every service. */
  lemma {:induction false} InOrderIsAdmissible(all: seq<ServiceSpec>, n: nat)
    requires n <= |all| && DependsEarlier(all)
    ensures Admissible(all, InOrder(all, n)) && ReachesAll(all[..n], InOrder(all, n))
  {
    if n > 0 {
      InOrderIsAdmissible(all, n - 1);
      hide DependsEarlier, Admissible, ReachesAll;
      var before, s := InOrder(all, n - 1), all[n - 1];
      ConditionsBehind(all, n - 1, before);
      OneMore(all, before, s);
      ReachesOneMore(all[..n - 1], before, s);
      assert all[..n] == all[..n - 1] + [s];
    }
  }

  lemma ConditionsBehind(all: seq<ServiceSpec>, n: nat, before: seq<Event>)
    requires n < |all| && DependsEarlier(all) && ReachesAll(all[..n], before)
    ensures forall d :: d in all[n].dependsOn ==> Satisfies(d, all[n].dependsOn[d]) in before
  {
    forall d | d in all[n].dependsOn ensures Satisfies(d, all[n].dependsOn[d]) in before {
      var j :| 0 <= j < n && all[j].name == d;
      assert all[..n][j].name == d;
    }
  }

  lemma ReachesOneMore(init: seq<ServiceSpec>, before: seq<Event>, s: ServiceSpec)
    requires ReachesAll(init, before)
    ensures ReachesAll(init + [s], before + [Started(s.name), BecameHealthy(s.name), Exited(s.name)])
  {
    var log := before + [Started(s.name), BecameHealthy(s.name), Exited(s.name)];
    assert log[|before|] == Started(s.name) && log[|before| + 1] == BecameHealthy(s.name)
           && log[|before| + 2] == Exited(s.name);
  }

  lemma OneMore(all: seq<ServiceSpec>, before: seq<Event>, s: ServiceSpec)
    requires s in all && Admissible(all, before)
    requires forall d :: d in s.dependsOn ==> Satisfies(d, s.dependsOn[d]) in before
    ensures Admissible(all, before + [Started(s.name), BecameHealthy(s.name), Exited(s.name)])
  {
    var log := before + [Started(s.name), BecameHealthy(s.name), Exited(s.name)];
    forall k | 0 <= k < |log| ensures MayHappen(all, log[..k], log[k]) {
      if k < |before| {
        assert log[..k] == before[..k] && log[k] == before[k];
      } else {
        assert log[..|before|] == before;
        assert k > |before| ==> log[..k][|before|] == Started(s.name);
      }
    }
  }

  /** Every compiled plan can be brought up completely. */
  lemma PlanCanStart(m: Manifest, opts: Options)
    requires Compilable(m, opts)
    ensures exists log :: Admissible(PlanOf(m, opts).services, log)
              && ReachesAll(PlanOf(m, opts).services, log)
  {
    PlanDependsEarlier(m, opts);
    var all := PlanOf(m, opts).services;
    InOrderIsAdmissible(all, |all|);
    assert all[..|all|] == all;
  }

  // ---- Isolation ----

  /** Every service but the sidecar joins the internal network and nothing else; the sidecar
      exists, and the outbound network with it, exactly when an allow-list is declared. */
  lemma OnlyTheSidecarLeavesTheNetwork(m: Manifest, opts: Options, s: ServiceSpec)
    requires Compilable(m, opts) && s in PlanOf(m, opts).services
    ensures var plan := PlanOf(m, opts);
            && plan.network.internal
            && (s.name != EGRESS_SERVICE ==> s.networks == [plan.network.name])
            && (s.name == EGRESS_SERVICE ==>
                  m.egress != [] && plan.egressNetwork.Some?
                    && s.networks == [plan.network.name, plan.egressNetwork.value.name])
            && (plan.egressNetwork.Some? <==> m.egress != [])
            && (m.egress != [] ==> exists t :: t in plan.services && t.name == EGRESS_SERVICE)
  {
    var k := SpecCases(m, opts, s);
    if m.egress != [] {
      assert PlanOf(m, opts).services[0] == EgressPart(m, opts)[0];
    }
  }

  /** An Owner's image, the seed's included, always runs with the platform's hardening and
      never mounts the database volume. */
  lemma OwnerImagesAreConfined(m: Manifest, opts: Options, s: ServiceSpec)
    requires Compilable(m, opts) && s in PlanOf(m, opts).services
    requires s.name !in {DB_SERVICE, EGRESS_SERVICE}
    ensures s.runtime == Runtime(opts) && s.user == AppUser(opts) && s.readOnlyRoot
    ensures s.capDrop == ["ALL"] && s.securityOpt == ["no-new-privileges:true"] && s.volumes == []
    ensures s.resources == opts.resources.OrDefault(APP_RESOURCES)
    ensures forall name :: name in s.env ==> name in Injected(m.env) || (m.egress != [] && name in ProxyEnv(m.services))
  {
    var k := SpecCases(m, opts, s);
  }

  // ---- The names the Runner chooses ----

  function ProjectName(id: string): string { "s-" + id }

  function NetworkName(id: string): string { ProjectName(id) + "-net" }

  /** With the options the Runner passes, the two network names always differ, and the
      names of two Sessions' networks never meet. */
  lemma RunnerNetworksDiffer(opts: Options, id: string, other: Options, otherId: string)
    requires opts.project == ProjectName(id) && opts.networkName == NetworkName(id) && opts.egressNetworkName == ""
    requires other.project == ProjectName(otherId) && other.networkName == NetworkName(otherId)
             && other.egressNetworkName == ""
    ensures NetName(opts) != EgressNetName(opts)
    ensures id != otherId ==> NetName(opts) != NetName(other) && EgressNetName(opts) != EgressNetName(other)
  {
    assert |EgressNetName(opts)| == |NetName(opts)| + 7;
    assert NetName(opts)[2..2 + |id|] == id && NetName(other)[2..2 + |otherId|] == otherId;
    assert EgressNetName(opts)[2..2 + |id|] == id && EgressNetName(other)[2..2 + |otherId|] == otherId;
  }

  /** Across two Sessions one network name can be both: an id that itself ends in "-egress"
      makes its internal network bear the other's outbound name. Minted ids have no '-'. */
  lemma NetworkNamesMeet(opts: Options, id: string, other: Options, otherId: string)
    requires opts.project == ProjectName(id) && opts.networkName == NetworkName(id)
    requires other.project == ProjectName(otherId) && other.egressNetworkName == ""
    ensures NetName(opts) == EgressNetName(other) <==> id == otherId + "-egress"
  {
    assert EgressNetName(other) == "s-" + otherId + "-egress" + "-net";
    if NetName(opts) == EgressNetName(other) {
      assert id == NetName(opts)[2..|NetName(opts)| - 4];
      assert otherId + "-egress" == EgressNetName(other)[2..|EgressNetName(other)| - 4];
    } else {
      assert "s-" + (otherId + "-egress") + "-net" == EgressNetName(other);
    }
  }
}
