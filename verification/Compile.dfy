/** The compiler from a validated manifest to the locked-down plan of one Session's Stack
    (internal/runcontract/compile.go, plan.go). */
module Compile {
  import opened Text
  import opened Manifest

  datatype Resources = Resources(memoryBytes: int, cpus: real, pids: int) {
    function OrDefault(d: Resources): Resources
    {
      Resources(
        if memoryBytes == 0 then d.memoryBytes else memoryBytes,
        if cpus == 0.0 then d.cpus else cpus,
        if pids == 0 then d.pids else pids)
    }
  }

  const APP_RESOURCES := Resources(512 * 1048576, 1.0, 256)
  const DB_RESOURCES := Resources(256 * 1048576, 1.0, 256)
  const EGRESS_RESOURCES := Resources(64 * 1048576, 0.5, 64)

  datatype DbCreds = DbCreds(user: string, password: string, database: string)

  datatype Options = Options(
    project: string, networkName: string, runtime: string, appUser: string,
    resources: Resources, dbResources: Resources, images: map<string, string>, dbCreds: DbCreds,
    platformEnv: map<string, string>, egressProxyImage: string, egressNetworkName: string,
    egressResources: Resources)

  datatype Condition = Healthy | Completed

  datatype Network = Network(name: string, internal: bool)
  datatype Mount = Mount(source: string, target: string)
  datatype Healthcheck = Healthcheck(test: seq<string>, interval: string, timeout: string, retries: nat,
                                     startPeriod: string)

  datatype ServiceSpec = ServiceSpec(
    name: string, image: string, runtime: string, resources: Resources, networks: seq<string>,
    env: map<string, string>, user: string, readOnlyRoot: bool, tmpfs: seq<string>,
    volumes: seq<Mount>, capDrop: seq<string>, securityOpt: seq<string>, restart: string,
    healthcheck: Option<Healthcheck>, command: seq<string>, dependsOn: map<string, Condition>)

  datatype Plan = Plan(
    project: string, network: Network, egressNetwork: Option<Network>,
    volumes: seq<string>, services: seq<ServiceSpec>)

  datatype Failure =
    | InvalidManifest | ProjectMissing | BadProject | BadNetwork | BadEgressNetwork
    | NoPlatformValue(env: string) | NoEgressImage | BadCreds | NoSeedImage | NoImage(service: string)

  datatype Result = Ok(plan: Plan) | Err(failure: Failure)

  function OrDefault(v: string, d: string): string { if v == "" then d else v }

  // ---- Environment ----

  function Injected(vars: seq<EnvVar>): set<string>
  {
    set i | 0 <= i < |vars| && (vars[i].source == Static || vars[i].source == Platform) :: vars[i].name
  }

  predicate Resolvable(vars: seq<EnvVar>, platform: map<string, string>)
  {
    forall i :: 0 <= i < |vars| && vars[i].source == Platform ==> vars[i].name in platform
  }

  /** The value the last injected variable of that name gives. */
  function LastValue(vars: seq<EnvVar>, platform: map<string, string>, name: string): string
    requires Resolvable(vars, platform) && name in Injected(vars)
  {
    var last, rest := vars[|vars| - 1], vars[..|vars| - 1];
    if last.name == name && last.source == Static then last.value
    else if last.name == name && last.source == Platform then platform[name]
    else
      assert name in Injected(rest) by {
        var i :| 0 <= i < |vars| && vars[i].name == name && (vars[i].source == Static || vars[i].source == Platform);
        assert rest[i] == vars[i];
      }
      assert forall i :: 0 <= i < |rest| ==> rest[i] == vars[i];
      LastValue(rest, platform, name)
  }

  /** Static and platform variables are injected, the last of a name winning; an Owner
      secret never is. It fails on the first platform variable without a value. */
  method ResolveAppEnv(vars: seq<EnvVar>, platform: map<string, string>)
    returns (r: Option<map<string, string>>, missing: string)
    ensures r.Some? <==> Resolvable(vars, platform)
    ensures r.Some? ==> r.value == AppEnv(vars, platform)
    ensures r.None? ==>
              && missing !in platform
              && exists i :: 0 <= i < |vars| && vars[i].source == Platform && vars[i].name == missing
  {
    var out: map<string, string> := map[];
    missing := "";
    for i := 0 to |vars|
      invariant Resolvable(vars[..i], platform)
      invariant out == AppEnv(vars[..i], platform)
    {
      if vars[i].source == Static {
        out := out[vars[i].name := vars[i].value];
      } else if vars[i].source == Platform {
        if vars[i].name !in platform {
          return None, vars[i].name;
        }
        out := out[vars[i].name := platform[vars[i].name]];
      }
      AppEnvNext(vars, platform, i);
    }
    assert vars[..|vars|] == vars;
    r := Some(out);
  }

  lemma AppEnvNext(vars: seq<EnvVar>, platform: map<string, string>, i: nat)
    requires i < |vars| && Resolvable(vars[..i + 1], platform)
    ensures Resolvable(vars[..i], platform)
    ensures var before, e := AppEnv(vars[..i], platform), vars[i];
            AppEnv(vars[..i + 1], platform) ==
              if e.source == Static then before[e.name := e.value]
              else if e.source == Platform then before[e.name := platform[e.name]]
              else before
  {
    var now := vars[..i + 1];
    assert now[..i] == vars[..i];
    assert now[|now| - 1] == vars[i];
    forall k | 0 <= k < i && vars[..i][k].source == Platform ensures vars[..i][k].name in platform {
      assert now[k] == vars[..i][k];
    }
    InjectedNext(vars, i);
  }

  lemma InjectedNext(vars: seq<EnvVar>, i: nat)
    requires i < |vars|
    ensures Injected(vars[..i + 1])
         == Injected(vars[..i]) + (if vars[i].source == Static || vars[i].source == Platform then {vars[i].name}
                                   else {})
  {
    var now, before := vars[..i + 1], vars[..i];
    forall name | name in Injected(now)
      ensures name in Injected(before)
              || ((vars[i].source == Static || vars[i].source == Platform) && name == vars[i].name)
    {
      var k :| 0 <= k < |now| && now[k].name == name && (now[k].source == Static || now[k].source == Platform);
      if k < i { assert before[k] == now[k]; }
    }
    forall name | name in Injected(before) ensures name in Injected(now) {
      var k :| 0 <= k < |before| && before[k].name == name
        && (before[k].source == Static || before[k].source == Platform);
      assert now[k] == before[k];
    }
    assert now[i] == vars[i];
  }

  function AppEnv(vars: seq<EnvVar>, platform: map<string, string>): map<string, string>
    requires Resolvable(vars, platform)
  {
    map name | name in Injected(vars) :: LastValue(vars, platform, name)
  }

  function NoProxyHosts(services: seq<Service>): seq<string>
  {
    ["localhost", "127.0.0.1", DB_SERVICE] + seq(|services|, i requires 0 <= i < |services| => services[i].name)
  }

  function ProxyEnv(services: seq<Service>): map<string, string>
  {
    var url := "http://" + EGRESS_SERVICE + ":8888";
    var bypass := Join(NoProxyHosts(services), ',');
    map["HTTP_PROXY" := url, "HTTPS_PROXY" := url, "http_proxy" := url, "https_proxy" := url,
        "NO_PROXY" := bypass, "no_proxy" := bypass]
  }

  method InjectProxyEnv(env: map<string, string>, services: seq<Service>) returns (out: map<string, string>)
    ensures out == env + ProxyEnv(services)
  {
    var hosts := ["localhost", "127.0.0.1", DB_SERVICE];
    for i := 0 to |services|
      invariant hosts == NoProxyHosts(services[..i])
    {
      hosts := hosts + [services[i].name];
      assert NoProxyHosts(services[..i + 1]) == NoProxyHosts(services[..i]) + [services[i].name];
    }
    assert services[..|services|] == services;
    var url, bypass := "http://" + EGRESS_SERVICE + ":8888", Join(hosts, ',');
    var added := map["HTTP_PROXY" := url, "HTTPS_PROXY" := url, "http_proxy" := url, "https_proxy" := url,
                     "NO_PROXY" := bypass, "no_proxy" := bypass];
    out := env;
    var left := added.Keys;
    while left != {}
      invariant left <= added.Keys
      invariant out == env + (added - left)
      decreases left
    {
      var k :| k in left;
      out := out[k := added[k]];
      left := left - {k};
    }
    assert added - {} == added;
  }

  /** Validation keeps Owner variables off the proxy keys, so injecting clobbers nothing. */
  lemma ProxyKeysClobberNothing(m: Manifest, platform: map<string, string>)
    requires Contract(m) && Resolvable(m.env, platform)
    ensures AppEnv(m.env, platform).Keys !! ProxyEnv(m.services).Keys
  {
    forall name | name in Injected(m.env) ensures name !in ProxyEnv(m.services) {
      var i :| 0 <= i < |m.env| && m.env[i].name == name;
      assert Lower(name) !in RESERVED_ENV;
      if name in ProxyEnv(m.services) {
        ReservedKeysLowered(name);
      }
    }
  }

  lemma LoweredTo(name: string, lower: string)
    requires |name| == |lower| && forall i :: 0 <= i < |name| ==> LowerChar(name[i]) == lower[i]
    ensures Lower(name) == lower
  {
  }

  lemma ReservedKeysLowered(name: string)
    requires name in {"HTTP_PROXY", "HTTPS_PROXY", "http_proxy", "https_proxy", "NO_PROXY", "no_proxy"}
    ensures Lower(name) in RESERVED_ENV
  {
    if name == "HTTP_PROXY" || name == "http_proxy" {
      LoweredTo(name, "http_proxy");
    } else if name == "HTTPS_PROXY" || name == "https_proxy" {
      LoweredTo(name, "https_proxy");
    } else {
      LoweredTo(name, "no_proxy");
    }
  }

  // ---- The services ----

  function RenderRule(r: EgressRule): string
    requires r.port >= 0
  {
    r.host + ":" + Decimal(r.port)
  }

  /** The EGRESS_ALLOWLIST wire form: comma-separated host:port. */
  function RenderAllowlist(rules: seq<EgressRule>): string
    requires forall i :: 0 <= i < |rules| ==> rules[i].port >= 0
  {
    Join(seq(|rules|, i requires 0 <= i < |rules| => RenderRule(rules[i])), ',')
  }

  function EgressService(image: string, runtime: string, res: Resources, net: string, egressNet: string,
                         rules: seq<EgressRule>): ServiceSpec
    requires forall i :: 0 <= i < |rules| ==> rules[i].port >= 0
  {
    ServiceSpec(EGRESS_SERVICE, image, runtime, res, [net, egressNet],
      map["EGRESS_ALLOWLIST" := RenderAllowlist(rules)], "1000:1000", true, [], [], ["ALL"],
      ["no-new-privileges:true"], "on-failure",
      Some(Healthcheck(["CMD", "/egress-proxy", "-healthcheck"], "5s", "3s", 5, "3s")), [], map[])
  }

  function DbService(db: DB, creds: DbCreds, runtime: string, res: Resources, net: string, volume: string): ServiceSpec
  {
    ServiceSpec(DB_SERVICE, db.engine + ":" + db.version, runtime, res, [net],
      map["POSTGRES_USER" := creds.user, "POSTGRES_PASSWORD" := creds.password, "POSTGRES_DB" := creds.database],
      "", false, [], [Mount(volume, "/var/lib/postgresql/data")], [], ["no-new-privileges:true"], "on-failure",
      Some(Healthcheck(["CMD-SHELL", "pg_isready -U " + creds.user], "5s", "5s", 5, "")), [], map[])
  }

  /** The hardening every container with Owner code gets, the seed one-shot included. */
  function OwnerService(
    name: string, image: string, runtime: string, res: Resources, net: string, env: map<string, string>, user: string,
    restart: string, probe: Option<Healthcheck>, command: seq<string>, deps: map<string, Condition>): ServiceSpec
  {
    ServiceSpec(name, image, runtime, res, [net], env, user, true, ["/tmp"], [], ["ALL"],
      ["no-new-privileges:true"], restart, probe, command, deps)
  }

  function AppHealthcheck(argv: seq<string>): Option<Healthcheck>
  {
    if argv == [] then None else Some(Healthcheck(["CMD"] + argv, "2s", "3s", 15, "10s"))
  }

  // ---- The plan, field by field ----

  function NetName(opts: Options): string { OrDefault(opts.networkName, opts.project + "-net") }

  function EgressNetName(opts: Options): string { OrDefault(opts.egressNetworkName, opts.project + "-egress-net") }

  function Runtime(opts: Options): string { OrDefault(opts.runtime, "runsc") }

  function AppUser(opts: Options): string { OrDefault(opts.appUser, "1000:1000") }

  function StackEnv(m: Manifest, opts: Options): map<string, string>
    requires Resolvable(m.env, opts.platformEnv)
  {
    var env := AppEnv(m.env, opts.platformEnv);
    if m.egress == [] then env else env + ProxyEnv(m.services)
  }

  function AppDeps(m: Manifest): map<string, Condition>
  {
    if m.seed.Some? then map[SEED_SERVICE := Completed]
    else if m.db.Some? then map[DB_SERVICE := Healthy]
    else map[]
  }

  function EgressPart(m: Manifest, opts: Options): seq<ServiceSpec>
    requires forall i :: 0 <= i < |m.egress| ==> m.egress[i].port >= 0
  {
    if m.egress == [] then []
    else [EgressService(opts.egressProxyImage, Runtime(opts), opts.egressResources.OrDefault(EGRESS_RESOURCES),
            NetName(opts), EgressNetName(opts), m.egress)]
  }

  function DbPart(m: Manifest, opts: Options): seq<ServiceSpec>
  {
    if m.db.None? then []
    else [DbService(m.db.value, opts.dbCreds, Runtime(opts), opts.dbResources.OrDefault(DB_RESOURCES),
            NetName(opts), opts.project + "-pgdata")]
  }

  function SeedPart(m: Manifest, opts: Options): seq<ServiceSpec>
    requires Resolvable(m.env, opts.platformEnv)
    requires m.seed.Some? ==> m.seed.value.service in opts.images
  {
    if m.seed.None? then []
    else [OwnerService(SEED_SERVICE, opts.images[m.seed.value.service], Runtime(opts),
            opts.resources.OrDefault(APP_RESOURCES), NetName(opts), StackEnv(m, opts), AppUser(opts), "no", None,
            m.seed.value.command, map[DB_SERVICE := Healthy])]
  }

  function AppService(m: Manifest, opts: Options, s: Service): ServiceSpec
    requires Resolvable(m.env, opts.platformEnv) && s.name in opts.images
  {
    OwnerService(s.name, opts.images[s.name], Runtime(opts), opts.resources.OrDefault(APP_RESOURCES), NetName(opts),
      StackEnv(m, opts), AppUser(opts), "on-failure", AppHealthcheck(s.healthcheck), [], AppDeps(m))
  }

  function AppPart(m: Manifest, opts: Options): seq<ServiceSpec>
    requires Resolvable(m.env, opts.platformEnv)
    requires forall i :: 0 <= i < |m.services| ==> m.services[i].name in opts.images
  {
    seq(|m.services|, i requires 0 <= i < |m.services| => AppService(m, opts, m.services[i]))
  }

  ghost predicate OptionsOk(opts: Options)
  {
    && SafeName(opts.project)
    && (opts.networkName != "" ==> SafeName(opts.networkName))
    && (opts.egressNetworkName != "" ==> SafeName(opts.egressNetworkName))
  }

  ghost predicate Preparable(m: Manifest, opts: Options)
  {
    && Contract(m) && OptionsOk(opts) && Resolvable(m.env, opts.platformEnv)
    && (m.egress != [] ==> opts.egressProxyImage != "")
  }

  ghost predicate Supplied(m: Manifest, opts: Options)
  {
    && (m.db.Some? ==> opts.dbCreds.user != "" && opts.dbCreds.password != "" && opts.dbCreds.database != "")
    && (m.seed.Some? ==> m.seed.value.service in opts.images)
  }

  ghost predicate Imaged(m: Manifest, opts: Options)
  {
    forall i :: 0 <= i < |m.services| ==> m.services[i].name in opts.images
  }

  /** When Compile succeeds. */
  ghost predicate Compilable(m: Manifest, opts: Options)
  {
    Preparable(m, opts) && Supplied(m, opts) && Imaged(m, opts)
  }

  function PlanOf(m: Manifest, opts: Options): Plan
    requires Compilable(m, opts)
  {
    Plan(opts.project, Network(NetName(opts), true),
      if m.egress == [] then None else Some(Network(EgressNetName(opts), false)),
      if m.db.None? then [] else [opts.project + "-pgdata"],
      EgressPart(m, opts) + DbPart(m, opts) + SeedPart(m, opts) + AppPart(m, opts))
  }

  /** The failure names something that is really wrong. */
  ghost predicate Explains(m: Manifest, opts: Options, f: Failure)
  {
    match f
    case InvalidManifest => !Contract(m)
    case ProjectMissing => opts.project == ""
    case BadProject => !SafeName(opts.project)
    case BadNetwork => opts.networkName != "" && !SafeName(opts.networkName)
    case BadEgressNetwork => opts.egressNetworkName != "" && !SafeName(opts.egressNetworkName)
    case NoPlatformValue(name) =>
      name !in opts.platformEnv && exists i :: 0 <= i < |m.env| && m.env[i].source == Platform && m.env[i].name == name
    case NoEgressImage => m.egress != [] && opts.egressProxyImage == ""
    case BadCreds => m.db.Some?
      && (opts.dbCreds.user == "" || opts.dbCreds.password == "" || opts.dbCreds.database == "")
    case NoSeedImage => m.seed.Some? && m.seed.value.service !in opts.images
    case NoImage(name) => name !in opts.images && exists i :: 0 <= i < |m.services| && m.services[i].name == name
  }

  method CheckOptions(opts: Options) returns (failure: Option<Failure>)
    ensures failure.None? <==> OptionsOk(opts)
    ensures failure.Some? ==> forall m: Manifest :: Explains(m, opts, failure.value)
  {
    if opts.project == "" { return Some(ProjectMissing); }
    if !SafeName(opts.project) { return Some(BadProject); }
    if opts.networkName != "" && !SafeName(opts.networkName) { return Some(BadNetwork); }
    if opts.egressNetworkName != "" && !SafeName(opts.egressNetworkName) { return Some(BadEgressNetwork); }
    return None;
  }

  /** The DB and the seed, in that order, after what the plan already holds. */
  method AppendDbAndSeed(m: Manifest, opts: Options, before: Plan, appEnv: map<string, string>)
    returns (failure: Option<Failure>, plan: Plan)
    requires Contract(m) && Resolvable(m.env, opts.platformEnv) && appEnv == StackEnv(m, opts)
    ensures failure.Some? ==> Explains(m, opts, failure.value)
    ensures failure.None? <==> Supplied(m, opts)
    ensures failure.None? ==> plan == before.(
              volumes := before.volumes + if m.db.None? then [] else [opts.project + "-pgdata"],
              services := before.services + DbPart(m, opts) + SeedPart(m, opts))
  {
    plan := before;
    if m.db.Some? {
      if opts.dbCreds.user == "" || opts.dbCreds.password == "" || opts.dbCreds.database == "" {
        return Some(BadCreds), plan;
      }
      var volName := opts.project + "-pgdata";
      plan := plan.(volumes := plan.volumes + [volName]);
      plan := plan.(services := plan.services + [DbService(m.db.value, opts.dbCreds, Runtime(opts),
                opts.dbResources.OrDefault(DB_RESOURCES), NetName(opts), volName)]);
    }
    if m.seed.Some? {
      if m.seed.value.service !in opts.images {
        return Some(NoSeedImage), plan;
      }
      plan := plan.(services := plan.services + [OwnerService(SEED_SERVICE, opts.images[m.seed.value.service],
                Runtime(opts), opts.resources.OrDefault(APP_RESOURCES), NetName(opts), appEnv, AppUser(opts), "no",
                None, m.seed.value.command, map[DB_SERVICE := Healthy])]);
    }
    failure := None;
  }

  method AppendApps(m: Manifest, opts: Options, before: Plan, appEnv: map<string, string>,
                    appDeps: map<string, Condition>)
    returns (failure: Option<Failure>, plan: Plan)
    requires Resolvable(m.env, opts.platformEnv) && appEnv == StackEnv(m, opts) && appDeps == AppDeps(m)
    ensures failure.Some? ==> Explains(m, opts, failure.value)
    ensures failure.None? <==> Imaged(m, opts)
    ensures failure.None? ==> plan == before.(services := before.services + AppPart(m, opts))
  {
    plan := before;
    var apps: seq<ServiceSpec> := [];
    for i := 0 to |m.services|
      invariant forall k :: 0 <= k < i ==> m.services[k].name in opts.images
      invariant |apps| == i && plan == before.(services := before.services + apps)
      invariant forall k :: 0 <= k < i ==> apps[k] == AppService(m, opts, m.services[k])
    {
      var s := m.services[i];
      if s.name !in opts.images {
        return Some(NoImage(s.name)), plan;
      }
      var app := OwnerService(s.name, opts.images[s.name], Runtime(opts), opts.resources.OrDefault(APP_RESOURCES),
        NetName(opts), appEnv, AppUser(opts), "on-failure", AppHealthcheck(s.healthcheck), [], appDeps);
      apps := apps + [app];
      plan := plan.(services := plan.services + [app]);
    }
    failure := None;
    assert apps == AppPart(m, opts);
  }

  /** Validation, option checks and the environment; the egress sidecar leads the plan. */
  method Prepare(m: Manifest, opts: Options) returns (failure: Option<Failure>, plan: Plan, appEnv: map<string, string>)
    ensures failure.Some? ==> Explains(m, opts, failure.value)
    ensures failure.None? <==> Preparable(m, opts)
    ensures failure.None? ==> appEnv == StackEnv(m, opts)
    ensures failure.None? ==> plan == Plan(opts.project, Network(NetName(opts), true),
              if m.egress == [] then None else Some(Network(EgressNetName(opts), false)), [], EgressPart(m, opts))
  {
    plan, appEnv := Plan(opts.project, Network(NetName(opts), true), None, [], []), map[];
    var errs := Validate(m);
    if errs != [] { return Some(InvalidManifest), plan, appEnv; }
    failure := CheckOptions(opts);
    if failure.Some? { return; }
    var resolved, missing := ResolveAppEnv(m.env, opts.platformEnv);
    if resolved.None? { return Some(NoPlatformValue(missing)), plan, appEnv; }
    appEnv := resolved.value;
    if |m.egress| > 0 {
      if opts.egressProxyImage == "" { return Some(NoEgressImage), plan, appEnv; }
      plan := plan.(egressNetwork := Some(Network(EgressNetName(opts), false)));
      appEnv := InjectProxyEnv(appEnv, m.services);
      plan := plan.(services := plan.services + [EgressService(opts.egressProxyImage, Runtime(opts),
                opts.egressResources.OrDefault(EGRESS_RESOURCES), NetName(opts), EgressNetName(opts), m.egress)]);
    }
  }

  lemma DepsAre(m: Manifest)
    ensures AppDeps(m) ==
              if m.seed.Some? then map[SEED_SERVICE := Completed]
              else if m.db.Some? then map[DB_SERVICE := Healthy] else map[]
  {
  }

  /** Compile succeeds exactly on what can be compiled, and then yields the plan above;
      otherwise it names something that is really wrong. */
  method Compile(m: Manifest, opts: Options) returns (r: Result)
    ensures r.Ok? <==> Compilable(m, opts)
    ensures r.Ok? ==> r.plan == PlanOf(m, opts)
    ensures r.Err? ==> Explains(m, opts, r.failure)
  {
    hide Contract, OptionsOk, Resolvable, Supplied, Imaged, Explains, StackEnv, AppDeps;
    var refused, plan, appEnv := Prepare(m, opts);
    if refused.Some? { return Err(refused.value); }
    var appDeps: map<string, Condition> := map[];
    if m.seed.Some? {
      appDeps := appDeps[SEED_SERVICE := Completed];
    } else if m.db.Some? {
      appDeps := appDeps[DB_SERVICE := Healthy];
    }
    assert appDeps == AppDeps(m) by { DepsAre(m); }
    refused, plan := AppendDbAndSeed(m, opts, plan, appEnv);
    if refused.Some? { return Err(refused.value); }
    refused, plan := AppendApps(m, opts, plan, appEnv, appDeps);
    if refused.Some? { return Err(refused.value); }
    return Ok(plan);
  }
}
