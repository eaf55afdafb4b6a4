/** What the containers of a compiled plan are, said of the plan alone (internal/runcontract/compile.go:79-279):
    each service declared runs as it was declared, and nothing else does. */
module Declared {
  import opened Text
  import opened Manifest
  import opened Compile
  import opened Stack

  // ---- Environment ----

  predicate InjectedAt(vars: seq<EnvVar>, i: nat)
    requires i < |vars|
  {
    vars[i].source == Static || vars[i].source == Platform
  }

  /** The variable at i is injected, and no later one of its name is. */
  ghost predicate LastAt(vars: seq<EnvVar>, i: nat)
    requires i < |vars|
  {
    InjectedAt(vars, i) && forall j :: i < j < |vars| && InjectedAt(vars, j) ==> vars[j].name != vars[i].name
  }

  const PROXY_KEYS := {"HTTP_PROXY", "HTTPS_PROXY", "http_proxy", "https_proxy"}
  const BYPASS_KEYS := {"NO_PROXY", "no_proxy"}

  /** Each name has the value of its last static or platform variable, or, with an allow-list,
      the sidecar's address, or the hosts that bypass it; there are no other names. */
  ghost predicate EnvIs(m: Manifest, opts: Options, env: map<string, string>)
  {
    && (forall i :: 0 <= i < |m.env| && LastAt(m.env, i) ==>
          && m.env[i].name in env
          && (m.env[i].source == Static ==> env[m.env[i].name] == m.env[i].value)
          && (m.env[i].source == Platform ==>
                m.env[i].name in opts.platformEnv && env[m.env[i].name] == opts.platformEnv[m.env[i].name]))
    && (forall name :: name in env ==>
          || (exists i :: 0 <= i < |m.env| && InjectedAt(m.env, i) && m.env[i].name == name)
          || (m.egress != [] && name in PROXY_KEYS + BYPASS_KEYS))
    && (m.egress != [] ==> ProxiedBy(m, env))
  }

  ghost predicate ProxiedBy(m: Manifest, env: map<string, string>)
  {
    && (forall k :: k in PROXY_KEYS ==> k in env && env[k] == "http://egress:8888")
    && (forall k :: k in BYPASS_KEYS ==>
          k in env && Split(env[k], ',') == ["localhost", "127.0.0.1", "db"] + NamesIn(m.services))
  }

  function NamesIn(services: seq<Service>): seq<string>
  {
    seq(|services|, i requires 0 <= i < |services| => services[i].name)
  }

  // ---- Containers ----

  /** The caps, each a default where nothing is asked for. */
  ghost predicate Capped(r: Resources, asked: Resources, memory: int, cpus: real, pids: int)
  {
    && r.memoryBytes == (if asked.memoryBytes == 0 then memory else asked.memoryBytes)
    && r.cpus == (if asked.cpus == 0.0 then cpus else asked.cpus)
    && r.pids == (if asked.pids == 0 then pids else asked.pids)
  }

  ghost predicate RunsUnder(c: ServiceSpec, opts: Options)
  {
    c.runtime == if opts.runtime == "" then "runsc" else opts.runtime
  }

  /** What every container with Owner code gets. */
  ghost predicate Confined(m: Manifest, opts: Options, plan: Plan, c: ServiceSpec)
  {
    && RunsUnder(c, opts) && c.user == (if opts.appUser == "" then "1000:1000" else opts.appUser)
    && c.networks == [plan.network.name] && c.readOnlyRoot && c.tmpfs == ["/tmp"] && c.volumes == []
    && c.capDrop == ["ALL"] && c.securityOpt == ["no-new-privileges:true"]
    && Capped(c.resources, opts.resources, 512 * 1024 * 1024, 1.0, 256) && EnvIs(m, opts, c.env)
  }

  ghost predicate AppIs(m: Manifest, opts: Options, plan: Plan, s: Service, c: ServiceSpec)
  {
    && c.name == s.name && s.name in opts.images && c.image == opts.images[s.name] && c.command == []
    && c.restart == "on-failure" && Confined(m, opts, plan, c)
    && c.healthcheck == (if s.healthcheck == [] then None
                         else Some(Healthcheck(["CMD"] + s.healthcheck, "2s", "3s", 15, "10s")))
    && c.dependsOn == (if m.seed.Some? then map["seed" := Completed]
                       else if m.db.Some? then map["db" := Healthy] else map[])
  }

  ghost predicate SeedIs(m: Manifest, opts: Options, plan: Plan, seed: Seed, c: ServiceSpec)
  {
    && c.name == "seed" && seed.service in opts.images && c.image == opts.images[seed.service]
    && c.command == seed.command && c.restart == "no" && c.healthcheck == None && Confined(m, opts, plan, c)
    && c.dependsOn == map["db" := Healthy]
  }

  ghost predicate DbIs(opts: Options, plan: Plan, db: DB, c: ServiceSpec)
  {
    && c.name == "db" && c.image == db.engine + ":" + db.version && RunsUnder(c, opts)
    && c.env == map["POSTGRES_USER" := opts.dbCreds.user, "POSTGRES_PASSWORD" := opts.dbCreds.password,
                    "POSTGRES_DB" := opts.dbCreds.database]
    && c.networks == [plan.network.name] && c.user == "" && !c.readOnlyRoot && c.tmpfs == [] && c.capDrop == []
    && c.securityOpt == ["no-new-privileges:true"] && c.restart == "on-failure" && c.command == []
    && c.volumes == [Mount(opts.project + "-pgdata", "/var/lib/postgresql/data")]
    && c.healthcheck == Some(Healthcheck(["CMD-SHELL", "pg_isready -U " + opts.dbCreds.user], "5s", "5s", 5, ""))
    && c.dependsOn == map[] && Capped(c.resources, opts.dbResources, 256 * 1024 * 1024, 1.0, 256)
  }

  ghost predicate SidecarIs(m: Manifest, opts: Options, plan: Plan, c: ServiceSpec)
  {
    && c.name == "egress" && c.image == opts.egressProxyImage && RunsUnder(c, opts) && c.user == "1000:1000"
    && c.env.Keys == {"EGRESS_ALLOWLIST"} && Split(c.env["EGRESS_ALLOWLIST"], ',') == RulesIn(m.egress)
    && plan.egressNetwork.Some? && c.networks == [plan.network.name, plan.egressNetwork.value.name]
    && c.readOnlyRoot && c.tmpfs == [] && c.volumes == [] && c.capDrop == ["ALL"]
    && c.securityOpt == ["no-new-privileges:true"] && c.restart == "on-failure" && c.command == []
    && c.healthcheck == Some(Healthcheck(["CMD", "/egress-proxy", "-healthcheck"], "5s", "3s", 5, "3s"))
    && c.dependsOn == map[] && Capped(c.resources, opts.egressResources, 64 * 1024 * 1024, 0.5, 64)
  }

  /** host:port, rule by rule. */
  ghost function RulesIn(rules: seq<EgressRule>): seq<string>
  {
    seq(|rules|, i requires 0 <= i < |rules| =>
      rules[i].host + ":" + if rules[i].port >= 0 then Decimal(rules[i].port) else "")
  }

  ghost predicate Named(plan: Plan, opts: Options, m: Manifest)
  {
    && plan.project == opts.project && plan.network.internal
    && plan.network.name == (if opts.networkName == "" then opts.project + "-net" else opts.networkName)
    && (plan.egressNetwork.Some? <==> m.egress != [])
    && (m.egress != [] ==>
          && !plan.egressNetwork.value.internal
          && plan.egressNetwork.value.name
             == if opts.egressNetworkName == "" then opts.project + "-egress-net" else opts.egressNetworkName)
    && plan.volumes == (if m.db.Some? then [opts.project + "-pgdata"] else [])
  }

  /** Everything declared has its container. */
  ghost predicate NothingMissing(m: Manifest, opts: Options, plan: Plan)
  {
    && (forall s :: s in m.services ==> exists c :: c in plan.services && AppIs(m, opts, plan, s, c))
    && (m.seed.Some? ==> exists c :: c in plan.services && SeedIs(m, opts, plan, m.seed.value, c))
    && (m.db.Some? ==> exists c :: c in plan.services && DbIs(opts, plan, m.db.value, c))
    && (m.egress != [] ==> exists c :: c in plan.services && SidecarIs(m, opts, plan, c))
  }

  /** Every container is one that is declared. */
  ghost predicate NothingElse(m: Manifest, opts: Options, plan: Plan)
  {
    forall c :: c in plan.services ==> IsDeclared(m, opts, plan, c)
  }

  /** A compiled plan runs each service on its own image, with its own probe and the resolved
      environment, the seed on its service's image with its command, the database of the
      declared version with the credentials given, and the sidecar with the allow-list. */
  lemma PlanIsAsDeclared(m: Manifest, opts: Options, plan: Plan)
    requires Compilable(m, opts) && plan == PlanOf(m, opts)
    ensures Named(plan, opts, m) && NothingMissing(m, opts, plan) && NothingElse(m, opts, plan)
  {
    PlatformAsDeclared(m, opts, plan);
    forall s | s in m.services ensures exists c :: c in plan.services && AppIs(m, opts, plan, s, c) {
      var k :| 0 <= k < |m.services| && m.services[k] == s;
      AppAsDeclared(m, opts, plan, k);
    }
    forall c | c in plan.services ensures IsDeclared(m, opts, plan, c) {
      ContainerIsDeclared(m, opts, plan, c);
    }
    hide PlanOf, Compilable, AppIs, SeedIs, DbIs, SidecarIs, Named;
  }

  ghost predicate IsDeclared(m: Manifest, opts: Options, plan: Plan, c: ServiceSpec)
  {
    || (exists s :: s in m.services && AppIs(m, opts, plan, s, c))
    || (m.seed.Some? && SeedIs(m, opts, plan, m.seed.value, c))
    || (m.db.Some? && DbIs(opts, plan, m.db.value, c))
    || (m.egress != [] && SidecarIs(m, opts, plan, c))
  }

  lemma ContainerIsDeclared(m: Manifest, opts: Options, plan: Plan, c: ServiceSpec)
    requires Compilable(m, opts) && plan == PlanOf(m, opts) && c in plan.services
    ensures IsDeclared(m, opts, plan, c)
  {
    SeedAsDeclared(m, opts, plan);
    DbAsDeclared(m, opts, plan);
    SidecarAsDeclared(m, opts, plan);
    var k := SpecCases(m, opts, c);
    hide AppIs, SeedIs, DbIs, SidecarIs, AppService, EgressPart, DbPart, SeedPart, PlanOf;
    if k < |m.services| && c == AppService(m, opts, m.services[k]) {
      AppAsDeclared(m, opts, plan, k);
      assert m.services[k] in m.services;
    }
  }

  lemma PlatformAsDeclared(m: Manifest, opts: Options, plan: Plan)
    requires Compilable(m, opts) && plan == PlanOf(m, opts)
    ensures Named(plan, opts, m)
    ensures forall c :: c in SeedPart(m, opts) ==> m.seed.Some? && SeedIs(m, opts, plan, m.seed.value, c)
    ensures forall c :: c in DbPart(m, opts) ==> m.db.Some? && DbIs(opts, plan, m.db.value, c)
    ensures forall c :: c in EgressPart(m, opts) ==> m.egress != [] && SidecarIs(m, opts, plan, c)
    ensures m.seed.Some? ==> exists c :: c in plan.services && SeedIs(m, opts, plan, m.seed.value, c)
    ensures m.db.Some? ==> exists c :: c in plan.services && DbIs(opts, plan, m.db.value, c)
    ensures m.egress != [] ==> exists c :: c in plan.services && SidecarIs(m, opts, plan, c)
  {
    SeedAsDeclared(m, opts, plan);
    DbAsDeclared(m, opts, plan);
    SidecarAsDeclared(m, opts, plan);
    var e, d, s, apps := EgressPart(m, opts), DbPart(m, opts), SeedPart(m, opts), AppPart(m, opts);
    assert plan.services == e + d + s + apps;
    hide EgressPart, DbPart, SeedPart, AppPart, SeedIs, DbIs, SidecarIs, Compilable;
    assert forall c :: c in e || c in d || c in s ==> c in e + d + s + apps;
    assert m.seed.Some? ==> s[0] in s;
    assert m.db.Some? ==> d[0] in d;
    assert m.egress != [] ==> e[0] in e;
  }

  lemma SeedAsDeclared(m: Manifest, opts: Options, plan: Plan)
    requires Compilable(m, opts) && plan == PlanOf(m, opts)
    ensures |SeedPart(m, opts)| == if m.seed.Some? then 1 else 0
    ensures forall c :: c in SeedPart(m, opts) ==> m.seed.Some? && SeedIs(m, opts, plan, m.seed.value, c)
  {
    EnvAsDeclared(m, opts);
    hide StackEnv, EnvIs;
  }

  lemma DbAsDeclared(m: Manifest, opts: Options, plan: Plan)
    requires Compilable(m, opts) && plan == PlanOf(m, opts)
    ensures |DbPart(m, opts)| == if m.db.Some? then 1 else 0
    ensures forall c :: c in DbPart(m, opts) ==> m.db.Some? && DbIs(opts, plan, m.db.value, c)
  {
  }

  lemma SidecarAsDeclared(m: Manifest, opts: Options, plan: Plan)
    requires Compilable(m, opts) && plan == PlanOf(m, opts)
    ensures |EgressPart(m, opts)| == if m.egress != [] then 1 else 0
    ensures forall c :: c in EgressPart(m, opts) ==> m.egress != [] && SidecarIs(m, opts, plan, c)
  {
    AllowlistReadsBack(m.egress);
    hide RenderAllowlist, RulesIn;
  }

  lemma AppAsDeclared(m: Manifest, opts: Options, plan: Plan, k: nat)
    requires Compilable(m, opts) && plan == PlanOf(m, opts) && k < |m.services|
    ensures AppService(m, opts, m.services[k]) in plan.services
    ensures AppIs(m, opts, plan, m.services[k], AppService(m, opts, m.services[k]))
  {
    EnvAsDeclared(m, opts);
    hide StackEnv, EnvIs;
    assert AppPart(m, opts)[k] == AppService(m, opts, m.services[k]);
  }

  // ---- The environment is the one resolved ----

  lemma EnvAsDeclared(m: Manifest, opts: Options)
    requires Compilable(m, opts)
    ensures EnvIs(m, opts, StackEnv(m, opts))
  {
    ProxyKeysClobberNothing(m, opts.platformEnv);
    ProxyKeysAre(m);
    BypassReadsBack(m);
    AppEnvAsDeclared(m.env, opts.platformEnv);
    Layered(m, opts, AppEnv(m.env, opts.platformEnv), ProxyEnv(m.services));
  }

  /** The variables alone. */
  ghost predicate VarsAre(vars: seq<EnvVar>, platform: map<string, string>, env: map<string, string>)
  {
    && (forall i :: 0 <= i < |vars| && LastAt(vars, i) ==>
          && vars[i].name in env
          && (vars[i].source == Static ==> env[vars[i].name] == vars[i].value)
          && (vars[i].source == Platform ==> vars[i].name in platform && env[vars[i].name] == platform[vars[i].name]))
    && forall name :: name in env ==> exists i :: 0 <= i < |vars| && InjectedAt(vars, i) && vars[i].name == name
  }

  lemma AppEnvAsDeclared(vars: seq<EnvVar>, platform: map<string, string>)
    requires Resolvable(vars, platform)
    ensures VarsAre(vars, platform, AppEnv(vars, platform))
  {
    forall i | 0 <= i < |vars| && LastAt(vars, i)
      ensures vars[i].name in Injected(vars)
      ensures LastValue(vars, platform, vars[i].name)
           == if vars[i].source == Static then vars[i].value else platform[vars[i].name]
    {
      LastOneWins(vars, platform, i);
    }
    hide LastValue;
  }

  /** With the proxy's keys over them, which are no variable's. */
  lemma Layered(m: Manifest, opts: Options, env: map<string, string>, proxy: map<string, string>)
    requires VarsAre(m.env, opts.platformEnv, env) && env.Keys !! proxy.Keys
    requires ProxiedBy(m, proxy) && proxy.Keys == PROXY_KEYS + BYPASS_KEYS
    ensures EnvIs(m, opts, if m.egress == [] then env else env + proxy)
  {
    hide LastAt, InjectedAt, NamesIn;
  }

  lemma ProxyKeysAre(m: Manifest)
    ensures ProxyEnv(m.services).Keys == PROXY_KEYS + BYPASS_KEYS
  {
  }

  lemma {:induction false} LastOneWins(vars: seq<EnvVar>, platform: map<string, string>, i: nat)
    requires Resolvable(vars, platform) && i < |vars| && LastAt(vars, i)
    ensures vars[i].name in Injected(vars)
    ensures LastValue(vars, platform, vars[i].name)
         == if vars[i].source == Static then vars[i].value else platform[vars[i].name]
  {
    var n := |vars| - 1;
    if i < n {
      var rest := vars[..n];
      assert forall j :: 0 <= j < n ==> rest[j] == vars[j];
      LastOneWins(rest, platform, i);
    }
  }

  lemma BypassReadsBack(m: Manifest)
    requires Contract(m)
    ensures forall k :: k in PROXY_KEYS ==> k in ProxyEnv(m.services) && ProxyEnv(m.services)[k] == "http://egress:8888"
    ensures forall k :: k in BYPASS_KEYS ==>
              && k in ProxyEnv(m.services)
              && Split(ProxyEnv(m.services)[k], ',') == ["localhost", "127.0.0.1", "db"] + NamesIn(m.services)
  {
    var hosts := NoProxyHosts(m.services);
    assert hosts == ["localhost", "127.0.0.1", "db"] + NamesIn(m.services);
    forall i | 0 <= i < |hosts| ensures ',' !in hosts[i] {
      if i >= 3 {
        assert hosts[i] == m.services[i - 3].name && ServiceContract(m.services[i - 3]);
        NoCommaInNames(hosts[i]);
      }
    }
    SplitJoin(hosts, ',');
  }

  lemma NoCommaInNames(name: string)
    requires SafeName(name)
    ensures ',' !in name
  {
  }

  lemma AllowlistReadsBack(rules: seq<EgressRule>)
    requires forall i :: 0 <= i < |rules| ==>
               rules[i].port >= 0 && EgressHost(rules[i].host) && Port(rules[i].port)
    ensures rules != [] ==> Split(RenderAllowlist(rules), ',') == RulesIn(rules)
  {
    if rules != [] {
      var parts := seq(|rules|, i requires 0 <= i < |rules| => RenderRule(rules[i]));
      assert parts == RulesIn(rules);
      forall i | 0 <= i < |parts| ensures ',' !in parts[i] {
        NoCommaInRules(rules[i]);
      }
      SplitJoin(parts, ',');
    }
  }

  lemma NoCommaInRules(r: EgressRule)
    requires EgressHost(r.host) && Port(r.port)
    ensures ',' !in RenderRule(r)
  {
    var port := Decimal(r.port);
    assert forall i :: 0 <= i < |port| ==> IsDigit(port[i]);
  }
}
