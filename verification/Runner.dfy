/** What the Compose runner derives from a Project before it touches docker
    (internal/runner/compose.go): the backends, the minted environment and the plan. */
module Runner {
  import opened Text
  import opened Manifest
  import opened Compile
  import opened Stack
  import R = Registry
  import N = NetAddr
  import D = Declared

  datatype Project = Project(manifest: Manifest, images: map<string, string>)

  // ---- Session ids ----

  predicate ValidSessionId(id: string)
  {
    id != "" && forall i :: 0 <= i < |id| ==> LowerAlnum(id[i]) || id[i] == '-'
  }

  /** ^[a-z0-9-]+$, and so every minted id. */
  lemma IdsAre(id: string)
    ensures ValidSessionId(id) <==>
              id != "" && forall c :: c in id ==> 'a' <= c <= 'z' || '0' <= c <= '9' || c == '-'
    ensures R.SessionId(id) ==> ValidSessionId(id)
  {
    assert forall i :: 0 <= i < |id| ==> id[i] in id;
    assert R.SessionId(id) ==> forall i :: 0 <= i < |id| ==> R.IdChar(id[i]) && LowerAlnum(id[i]);
  }

  // ---- Backends ----

  /** fmt's "%d". */
  function FormatInt(n: int): string { if n < 0 then "-" + Decimal(-n) else Decimal(n) }

  function ContainerUrl(id: string, s: Service): string
  {
    "http://" + ProjectName(id) + "-" + s.name + "-1:" + FormatInt(s.port)
  }

  function UiOf(services: seq<Service>, id: string): R.Backend
  {
    if services == [] then R.NO_BACKEND
    else
      var last := services[|services| - 1];
      if last.role == UI then R.Backend("", ContainerUrl(id, last)) else UiOf(services[..|services| - 1], id)
  }

  function ApisOf(services: seq<Service>, id: string): seq<R.Backend>
  {
    if services == [] then []
    else
      var last := services[|services| - 1];
      ApisOf(services[..|services| - 1], id)
        + if last.role == API then [R.Backend(last.pathPrefix, ContainerUrl(id, last))] else []
  }

  method SessionBackends(services: seq<Service>, id: string) returns (ui: R.Backend, apis: seq<R.Backend>)
    ensures ui == UiOf(services, id) && apis == ApisOf(services, id)
    ensures forall k :: 0 <= k < |services| && IsLastUi(services, k) ==>
              ui.pathPrefix == "" && AddressIs(ui.url, id, services[k])
    ensures forall b :: b in apis <==>
              exists s :: s in services && s.role == API && b.pathPrefix == s.pathPrefix && AddressIs(b.url, id, s)
  {
    ui, apis := R.NO_BACKEND, [];
    for i := 0 to |services|
      invariant ui == UiOf(services[..i], id) && apis == ApisOf(services[..i], id)
    {
      var url := "http://" + ProjectName(id) + "-" + services[i].name + "-1:" + FormatInt(services[i].port);
      if services[i].role == UI {
        ui := R.Backend("", url);
      } else if services[i].role == API {
        apis := apis + [R.Backend(services[i].pathPrefix, url)];
      }
      assert services[..i + 1][..i] == services[..i];
    }
    assert services[..|services|] == services;
    BackendsAreAddressed(services, id);
  }

  ghost predicate IsLastUi(services: seq<Service>, k: nat)
    requires k < |services|
  {
    services[k].role == UI && forall j :: k < j < |services| ==> services[j].role != UI
  }

  /** The address of a service's container, spelled out. */
  ghost predicate AddressIs(url: string, id: string, s: Service)
  {
    url == "http://s-" + id + "-" + s.name + "-1:" + FormatInt(s.port)
  }

  lemma AddressText(url: string, id: string, s: Service)
    ensures AddressIs(url, id, s) <==> url == ContainerUrl(id, s)
  {
    assert "http://s-" + id == "http://" + ("s-" + id);
  }

  lemma BackendsAreAddressed(services: seq<Service>, id: string)
    ensures forall k :: 0 <= k < |services| && IsLastUi(services, k) ==>
              UiOf(services, id).pathPrefix == "" && AddressIs(UiOf(services, id).url, id, services[k])
    ensures forall b :: b in ApisOf(services, id) <==>
              exists s :: s in services && s.role == API && b.pathPrefix == s.pathPrefix && AddressIs(b.url, id, s)
  {
    forall url, s ensures AddressIs(url, id, s) <==> url == ContainerUrl(id, s) {
      AddressText(url, id, s);
    }
    hide ContainerUrl, UiOf, ApisOf, AddressIs;
    forall k | 0 <= k < |services| && IsLastUi(services, k)
      ensures UiOf(services, id) == R.Backend("", ContainerUrl(id, services[k]))
    {
      UiIsTheLast(services, id, k);
    }
    forall b ensures b in ApisOf(services, id) <==> exists s :: s in services && IsApi(b, s, id) {
      ApisAreTheApiServices(services, id, b);
    }
  }

  /** Of several UI services the last is taken. */
  lemma {:induction false} UiIsTheLast(services: seq<Service>, id: string, k: nat)
    requires k < |services| && IsLastUi(services, k)
    ensures UiOf(services, id) == R.Backend("", ContainerUrl(id, services[k]))
  {
    if k < |services| - 1 {
      UiIsTheLast(services[..|services| - 1], id, k);
    }
  }

  /** The address leads back to the container and to the port its service listens on. */
  lemma AddressLeadsBack(id: string, s: Service)
    requires N.PlainName(id) && N.PlainName(s.name) && 0 <= s.port < 0x1_0000
    ensures var at := N.SplitHostPort(ContainerUrl(id, s)[|"http://"|..]);
            && at.Some? && at.value.host == "s-" + id + "-" + s.name + "-1" && Atoi(at.value.port) == Some(s.port)
  {
    var host, port := "s-" + id + "-" + s.name + "-1", Decimal(s.port);
    assert ContainerUrl(id, s)[|"http://"|..] == host + ":" + port;
    assert forall i :: 0 <= i < |port| ==> IsDigit(port[i]);
    N.SplitUndoesJoin(host, port);
    AtoiDecimal(s.port);
  }

  /** So services that listen on different ports have different addresses. */
  lemma PortsTellApart(id: string, s: Service, other: string, t: Service)
    requires N.PlainName(id) && N.PlainName(s.name) && N.PlainName(other) && N.PlainName(t.name)
    requires 0 <= s.port < 0x1_0000 && 0 <= t.port < 0x1_0000 && ContainerUrl(id, s) == ContainerUrl(other, t)
    ensures s.port == t.port
  {
    AddressLeadsBack(id, s);
    AddressLeadsBack(other, t);
  }

  predicate IsApi(b: R.Backend, s: Service, id: string)
  {
    s.role == API && b == R.Backend(s.pathPrefix, ContainerUrl(id, s))
  }

  /** Exactly the API services become API backends, each with its own prefix and address. */
  lemma {:induction false} ApisAreTheApiServices(services: seq<Service>, id: string, b: R.Backend)
    ensures b in ApisOf(services, id) <==> exists s :: s in services && IsApi(b, s, id)
  {
    if services != [] {
      var init, last := services[..|services| - 1], services[|services| - 1];
      ApisAreTheApiServices(init, id, b);
      assert services == init + [last];
      assert b in ApisOf(services, id) <==> b in ApisOf(init, id) || IsApi(b, last, id);
      assert forall s :: s in services <==> s in init || s == last;
    }
  }

  /** In a validated manifest the UI backend is the one UI service. */
  lemma {:induction false} UiIsTheUiService(services: seq<Service>, id: string, k: nat)
    requires k < |services| && services[k].role == UI
    requires forall j :: 0 <= j < |services| && services[j].role == UI ==> j == k
    ensures UiOf(services, id) == R.Backend("", ContainerUrl(id, services[k]))
    ensures UiUrl(services) == "http://" + services[k].name + ":" + FormatInt(services[k].port)
  {
    if k < |services| - 1 {
      UiIsTheUiService(services[..|services| - 1], id, k);
    }
  }

  /** Containers of Sessions whose ids hold no '-', as minted ones, never share an address. */
  lemma AddressesAreUnique(id: string, s: Service, other: string, t: Service)
    requires '-' !in id && '-' !in other && ':' !in s.name && ':' !in t.name
    requires ContainerUrl(id, s) == ContainerUrl(other, t)
    ensures id == other && s.name == t.name
  {
    var tail, otherTail := s.name + "-1:" + FormatInt(s.port), t.name + "-1:" + FormatInt(t.port);
    assert ContainerUrl(id, s) == "http://s-" + (id + "-" + tail);
    assert ContainerUrl(other, t) == "http://s-" + (other + "-" + otherTail);
    assert ContainerUrl(id, s)[9..] == id + "-" + tail && ContainerUrl(other, t)[9..] == other + "-" + otherTail;
    FirstMark(id, tail, other, otherTail, '-');
    NoColon(s.port);
    NoColon(t.port);
    assert tail == (s.name + "-1") + ":" + FormatInt(s.port);
    assert otherTail == (t.name + "-1") + ":" + FormatInt(t.port);
    FirstMark(s.name + "-1", FormatInt(s.port), t.name + "-1", FormatInt(t.port), ':');
    assert (s.name + "-1")[..|s.name|] == s.name && (t.name + "-1")[..|t.name|] == t.name;
  }

  lemma NoColon(n: int)
    ensures ':' !in FormatInt(n)
  {
  }

  lemma FirstMark(a: string, x: string, b: string, y: string, mark: char)
    requires mark !in a && mark !in b && a + [mark] + x == b + [mark] + y
    ensures a == b && x == y
  {
    NoShorter(a, x, b, y, mark);
    NoShorter(b, y, a, x, mark);
    var s := a + [mark] + x;
    assert a == s[..|a|] && b == s[..|b|];
    assert x == s[|a| + 1..] && y == s[|b| + 1..];
  }

  lemma NoShorter(a: string, x: string, b: string, y: string, mark: char)
    requires mark !in b && a + [mark] + x == b + [mark] + y
    ensures |a| >= |b|
  {
    var s := a + [mark] + x;
    assert forall k :: 0 <= k < |b| ==> s[k] == b[k];
    assert s[|a|] == mark;
  }

  /** With a '-' in the id, which the Runner accepts, two Sessions' containers can meet. */
  lemma AddressesCanMeet(a: string, b: string, name: string, s: Service)
    requires s.name == name
    ensures ContainerUrl(a + "-" + b, s) == ContainerUrl(a, s.(name := b + "-" + name))
  {
    var end := "-1:" + FormatInt(s.port);
    assert ContainerUrl(a + "-" + b, s) == "http://s-" + (a + "-" + b + "-" + name) + end;
    assert ContainerUrl(a, s.(name := b + "-" + name)) == "http://s-" + (a + "-" + (b + "-" + name)) + end;
    assert a + "-" + b + "-" + name == a + "-" + (b + "-" + name);
  }

  // ---- The plan of one Session ----

  const DATABASE_URL := "DATABASE_URL"

  function Dsn(creds: DbCreds): string
  {
    "postgres://" + creds.user + ":" + creds.password + "@db:5432/" + creds.database + "?sslmode=disable"
  }

  /** Every platform variable is one the Runner knows a value for. */
  ghost predicate KnownPlatformEnv(vars: seq<EnvVar>)
  {
    forall i :: 0 <= i < |vars| && vars[i].source == Platform ==> vars[i].name == DATABASE_URL
  }

  ghost predicate AsksForDatabase(vars: seq<EnvVar>)
  {
    exists i :: 0 <= i < |vars| && vars[i].source == Platform
  }

  ghost function PlatformEnvOf(vars: seq<EnvVar>, creds: DbCreds): map<string, string>
  {
    if AsksForDatabase(vars) then map[DATABASE_URL := Dsn(creds)] else map[]
  }

  method ResolvePlatformEnv(vars: seq<EnvVar>, creds: DbCreds) returns (r: Option<map<string, string>>)
    ensures r.Some? <==> KnownPlatformEnv(vars)
    ensures r.Some? ==> r.value == PlatformEnvOf(vars, creds)
  {
    var env: map<string, string> := map[];
    for i := 0 to |vars|
      invariant forall k :: 0 <= k < i && vars[k].source == Platform ==> vars[k].name == DATABASE_URL
      invariant env == if exists k :: 0 <= k < i && vars[k].source == Platform then map[DATABASE_URL := Dsn(creds)]
                else map[]
    {
      if vars[i].source != Platform {
        continue;
      }
      if vars[i].name != DATABASE_URL {
        return None;
      }
      env := env[vars[i].name := Dsn(creds)];
    }
    return Some(env);
  }

  const NO_RESOURCES := Resources(0, 0.0, 0)

  /** Runtime and the egress image are the Runner's own settings. */
  datatype Settings = Settings(runtime: string, traefik: string, egressProxyImage: string)

  ghost function OptionsFor(set_: Settings, p: Project, id: string, password: string): Options
  {
    var creds := if p.manifest.db.Some? then DbCreds("showcase", password, "showcase") else DbCreds("", "", "");
    Options(ProjectName(id), NetworkName(id), set_.runtime, "", NO_RESOURCES, NO_RESOURCES, p.images, creds,
      if p.manifest.db.Some? then PlatformEnvOf(p.manifest.env, creds)
        else map[], set_.egressProxyImage, "", NO_RESOURCES)
  }

  /** When a Project can be planned at all, password being the minted secret if minting works. */
  ghost predicate Plannable(set_: Settings, p: Project, id: string, password: Option<string>)
  {
    && (p.manifest.db.Some? ==> password.Some? && KnownPlatformEnv(p.manifest.env))
    && Compilable(p.manifest, OptionsFor(set_, p, id, password.GetOr("")))
  }

  /** In the Owner's terms: the manifest meets the contract, every service has an image, an
      allow-list has a proxy image, and platform variables are asked for only with a
      database, and only the one. */
  lemma PlannableIff(set_: Settings, p: Project, id: string, password: Option<string>)
    requires ValidSessionId(id) && (password.Some? ==> password.value != "")
    ensures Plannable(set_, p, id, password) <==>
              && Contract(p.manifest)
              && (forall i :: 0 <= i < |p.manifest.services| ==> p.manifest.services[i].name in p.images)
              && (p.manifest.egress != [] ==> set_.egressProxyImage != "")
              && (p.manifest.db.Some? ==> password.Some?)
              && KnownPlatformEnv(p.manifest.env) && (AsksForDatabase(p.manifest.env) ==> p.manifest.db.Some?)
  {
    var opts := OptionsFor(set_, p, id, password.GetOr(""));
    assert SafeName(opts.project) && SafeName(opts.networkName);
    if KnownPlatformEnv(p.manifest.env) && (AsksForDatabase(p.manifest.env) ==> p.manifest.db.Some?) {
      assert Resolvable(p.manifest.env, opts.platformEnv);
    }
  }

  // ---- What a Session runs ----

  /** The database's own settings, as an address. */
  predicate LeadsToDatabase(url: string, d: ServiceSpec)
  {
    && d.name == "db" && d.env.Keys == {"POSTGRES_USER", "POSTGRES_PASSWORD", "POSTGRES_DB"}
    && url == "postgres://" + d.env["POSTGRES_USER"] + ":" + d.env["POSTGRES_PASSWORD"] + "@db:5432/"
              + d.env["POSTGRES_DB"] + "?sslmode=disable"
  }

  /** Wherever the database's address was asked for and not set otherwise, it is that of the
      Stack's own database. */
  ghost predicate ReachesDatabase(vars: seq<EnvVar>, plan: Plan, c: ServiceSpec)
  {
    forall i :: 0 <= i < |vars| && D.LastAt(vars, i) && vars[i].source == Platform ==>
      && vars[i].name == "DATABASE_URL" && "DATABASE_URL" in c.env
      && exists d :: d in plan.services && LeadsToDatabase(c.env["DATABASE_URL"], d)
  }

  /** Of a Session's plan: its names are the Session's, every service runs its own image under
      the Runner's runtime and reaches the Stack's own database, the database's password is the
      minted one, and the sidecar is the Runner's. */
  lemma SessionRunsAsDeclared(set_: Settings, p: Project, id: string, password: Option<string>, plan: Plan)
    requires Plannable(set_, p, id, password) && plan == PlanOf(p.manifest, OptionsFor(set_, p, id, password.GetOr("")))
    ensures plan.project == "s-" + id && plan.network == Network("s-" + id + "-net", true)
    ensures forall s :: s in p.manifest.services ==> exists c :: c in plan.services && AppRuns(set_, p, plan, s, c)
    ensures p.manifest.db.Some? ==>
              exists d :: d in plan.services && d.name == "db" && "POSTGRES_PASSWORD" in d.env
                && Some(d.env["POSTGRES_PASSWORD"]) == password
    ensures p.manifest.egress != [] ==>
              exists c :: c in plan.services && c.name == "egress" && c.image == set_.egressProxyImage
  {
    var opts, m := OptionsFor(set_, p, id, password.GetOr("")), p.manifest;
    D.PlanIsAsDeclared(m, opts, plan);
    hide PlanOf, Compilable, D.NothingElse, D.SeedIs;
    forall s | s in m.services ensures exists c :: c in plan.services && AppRuns(set_, p, plan, s, c) {
      var c :| c in plan.services && D.AppIs(m, opts, plan, s, c);
      AppIsRun(set_, p, id, password, plan, s, c);
    }
  }

  ghost predicate AppRuns(set_: Settings, p: Project, plan: Plan, s: Service, c: ServiceSpec)
  {
    && c.name == s.name && s.name in p.images && c.image == p.images[s.name]
    && c.runtime == (if set_.runtime == "" then "runsc" else set_.runtime)
    && ReachesDatabase(p.manifest.env, plan, c)
  }

  lemma AppIsRun(set_: Settings, p: Project, id: string, password: Option<string>, plan: Plan, s: Service,
                 c: ServiceSpec)
    requires Plannable(set_, p, id, password) && plan == PlanOf(p.manifest, OptionsFor(set_, p, id, password.GetOr("")))
    requires var opts := OptionsFor(set_, p, id, password.GetOr(""));
             D.AppIs(p.manifest, opts, plan, s, c) && D.NothingMissing(p.manifest, opts, plan)
    ensures AppRuns(set_, p, plan, s, c)
  {
    hide PlanOf, Compilable, Plannable, D.NothingMissing, D.EnvIs;
    var opts, m := OptionsFor(set_, p, id, password.GetOr("")), p.manifest;
    forall i | 0 <= i < |m.env| && D.LastAt(m.env, i) && m.env[i].source == Platform
      ensures m.env[i].name == "DATABASE_URL" && "DATABASE_URL" in c.env
      ensures exists d :: d in plan.services && LeadsToDatabase(c.env["DATABASE_URL"], d)
    {
      PlatformNeedsDb(set_, p, id, password, i);
      hide OptionsFor, LeadsToDatabase;
      AppReachesDatabase(m, opts, plan, s, c, i);
    }
  }

  lemma AppReachesDatabase(m: Manifest, opts: Options, plan: Plan, s: Service, c: ServiceSpec, i: nat)
    requires D.AppIs(m, opts, plan, s, c) && D.NothingMissing(m, opts, plan) && m.db.Some?
    requires i < |m.env| && D.LastAt(m.env, i) && m.env[i].source == Platform && m.env[i].name == "DATABASE_URL"
    requires "DATABASE_URL" in opts.platformEnv && opts.platformEnv["DATABASE_URL"] == Dsn(opts.dbCreds)
    ensures "DATABASE_URL" in c.env && exists d :: d in plan.services && LeadsToDatabase(c.env["DATABASE_URL"], d)
  {
    hide Dsn, D.ProxiedBy, D.SeedIs, D.SidecarIs, LeadsToDatabase;
    var d :| d in plan.services && D.DbIs(opts, plan, m.db.value, d);
    DatabaseIsLedTo(opts, plan, m.db.value, d);
  }

  lemma PlatformNeedsDb(set_: Settings, p: Project, id: string, password: Option<string>, i: nat)
    requires Plannable(set_, p, id, password) && i < |p.manifest.env| && p.manifest.env[i].source == Platform
    ensures p.manifest.db.Some? && p.manifest.env[i].name == "DATABASE_URL"
    ensures var opts := OptionsFor(set_, p, id, password.GetOr(""));
            "DATABASE_URL" in opts.platformEnv && opts.platformEnv["DATABASE_URL"] == Dsn(opts.dbCreds)
  {
    var opts := OptionsFor(set_, p, id, password.GetOr(""));
    assert Resolvable(p.manifest.env, opts.platformEnv);
    assert p.manifest.env[i].name in opts.platformEnv;
    hide Compilable;
    assert AsksForDatabase(p.manifest.env);
  }

  lemma DatabaseIsLedTo(opts: Options, plan: Plan, db: DB, d: ServiceSpec)
    requires D.DbIs(opts, plan, db, d)
    ensures LeadsToDatabase(Dsn(opts.dbCreds), d)
  {
    assert d.env == map["POSTGRES_USER" := opts.dbCreds.user, "POSTGRES_PASSWORD" := opts.dbCreds.password,
                        "POSTGRES_DB" := opts.dbCreds.database];
  }

  datatype Planned = Planned(plan: Plan, url: string, secrets: seq<string>) | Unplannable

  function UiUrl(services: seq<Service>): string
  {
    if services == [] then ""
    else
      var last := services[|services| - 1];
      if last.role == UI then "http://" + last.name + ":" + FormatInt(last.port) else UiUrl(services[..|services| - 1])
  }

  method FindUiUrl(services: seq<Service>) returns (url: string)
    ensures url == UiUrl(services)
  {
    url := "";
    for i := 0 to |services|
      invariant url == UiUrl(services[..i])
    {
      if services[i].role == UI {
        url := "http://" + services[i].name + ":" + FormatInt(services[i].port);
      }
      assert services[..i + 1][..i] == services[..i];
    }
    assert services[..|services|] == services;
  }

  method BuildPlan(set_: Settings, p: Project, id: string, password: Option<string>) returns (r: Planned)
    ensures r.Planned? <==> Plannable(set_, p, id, password)
    ensures r.Planned? ==>
              && r.plan == PlanOf(p.manifest, OptionsFor(set_, p, id, password.GetOr("")))
              && r.url == UiUrl(p.manifest.services)
              && r.secrets == if p.manifest.db.Some? then [password.value] else []
  {
    var opts := Options(ProjectName(id), NetworkName(id), set_.runtime, "", NO_RESOURCES, NO_RESOURCES, p.images,
      DbCreds("", "", ""), map[], set_.egressProxyImage, "", NO_RESOURCES);
    var url := FindUiUrl(p.manifest.services);
    var secrets: seq<string> := [];
    if p.manifest.db.Some? {
      if password.None? {
        return Unplannable;
      }
      var creds := DbCreds("showcase", password.value, "showcase");
      opts := opts.(dbCreds := creds);
      secrets := secrets + [password.value];
      var env := ResolvePlatformEnv(p.manifest.env, creds);
      if env.None? {
        return Unplannable;
      }
      opts := opts.(platformEnv := env.value);
    }
    assert opts == OptionsFor(set_, p, id, password.GetOr(""));
    var compiled := Compile.Compile(p.manifest, opts);
    if compiled.Err? {
      return Unplannable;
    }
    return Planned(compiled.plan, url, secrets);
  }

  /** What the world outside decides about the planning of one boot. */
  datatype Inputs = Inputs(project: Option<Project>, password: Option<string>, files: bool)

  ghost predicate Startable(set_: Settings, id: string, in_: Inputs)
  {
    && ValidSessionId(id) && in_.project.Some? && in_.files
    && Plannable(set_, in_.project.value, id, in_.password)
  }

  datatype Ready = Ready(services: seq<Service>, url: string, secrets: seq<string>)

  /** All of Provision that comes before the first shared step. */
  method PrepareBoot(set_: Settings, id: string, in_: Inputs) returns (r: Option<Ready>)
    ensures r.Some? <==> Startable(set_, id, in_)
    ensures r.Some? ==>
              && r.value.services == in_.project.value.manifest.services
              && r.value.url == UiUrl(r.value.services)
              && r.value.secrets == if in_.project.value.manifest.db.Some? then [in_.password.value] else []
  {
    if !ValidSessionId(id) || in_.project.None? {
      return None;
    }
    var project := in_.project.value;
    var planned := BuildPlan(set_, project, id, in_.password);
    if planned.Unplannable? || !in_.files {
      return None;
    }
    return Some(Ready(project.manifest.services, planned.url, planned.secrets));
  }
}
