/** The run contract an Owner declares, and its validation
    (internal/runcontract/manifest.go). Validate walks the manifest once, keeping what it
    has seen, and reports every broken rule. */
module Manifest {
  import opened Text

  // Go's Role and EnvSource are strings; Other stands for every unknown value.
  datatype Role = UI | API | OtherRole(string)
  datatype EnvSource = Platform | Static | Owner | OtherSource(string)

  datatype Service = Service(
    name: string, repo: string, dockerfile: string, port: int, role: Role,
    pathPrefix: string, healthcheck: seq<string>)
  datatype DB = DB(engine: string, version: string)
  datatype EnvVar = EnvVar(name: string, source: EnvSource, value: string)
  datatype Seed = Seed(service: string, command: seq<string>)
  datatype EgressRule = EgressRule(host: string, port: int)

  datatype Manifest = Manifest(
    services: seq<Service>, db: Option<DB>, env: seq<EnvVar>, seed: Option<Seed>, egress: seq<EgressRule>)

  const DB_SERVICE := "db"
  const SEED_SERVICE := "seed"
  const EGRESS_SERVICE := "egress"
  const RESERVED_SERVICES := {DB_SERVICE, SEED_SERVICE, EGRESS_SERVICE}
  const RESERVED_ENV := {"http_proxy", "https_proxy", "no_proxy"}

  predicate LowerAlnum(c: char) { 'a' <= c <= 'z' || '0' <= c <= '9' }

  predicate Alnum(c: char) { LowerAlnum(c) || 'A' <= c <= 'Z' }

  /** ^[a-z0-9][a-z0-9-]*$ */
  predicate SafeName(s: string)
  {
    s != "" && LowerAlnum(s[0]) && forall i :: 0 <= i < |s| ==> LowerAlnum(s[i]) || s[i] == '-'
  }

  /** ^[a-zA-Z0-9]([a-zA-Z0-9.-]*[a-zA-Z0-9])?$ */
  predicate EgressHost(s: string)
  {
    && s != "" && Alnum(s[0]) && Alnum(s[|s| - 1])
    && forall i :: 0 <= i < |s| ==> Alnum(s[i]) || s[i] == '.' || s[i] == '-'
  }

  predicate Port(p: int) { 1 <= p <= 65535 }

  // ---- The Dockerfile path ----

  /** The segments path.Clean keeps of a relative path: out grows from the left. */
  function CleanSegments(segments: seq<string>, out: seq<string>): seq<string>
    decreases |segments|
  {
    if segments == [] then out
    else
      var s, rest := segments[0], segments[1..];
      if s == "" || s == "." then CleanSegments(rest, out)
      else if s == ".." && out != [] && out[|out| - 1] != ".." then CleanSegments(rest, out[..|out| - 1])
      else CleanSegments(rest, out + [s])
  }

  /** path.Clean on a path that is not rooted. */
  function Clean(p: string): string
  {
    var out := CleanSegments(Split(p, '/'), []);
    if out == [] then "." else Join(out, '/')
  }

  predicate SafeContextPath(p: string)
  {
    if p == "" || '\\' in p || HasPrefix(p, "/") then false
    else
      var c := Clean(p);
      c != "." && c != ".." && !HasPrefix(c, "../")
  }

  /** How deep below its start a walk along the segments ends; None once it leaves the start. */
  function Walk(segments: seq<string>, depth: nat): Option<nat>
    decreases |segments|
  {
    if segments == [] then Some(depth)
    else if segments[0] == "" || segments[0] == "." then Walk(segments[1..], depth)
    else if segments[0] == ".." then if depth == 0 then None else Walk(segments[1..], depth - 1)
    else Walk(segments[1..], depth + 1)
  }

  ghost predicate Segments(xs: seq<string>)
  {
    forall i :: 0 <= i < |xs| ==> '/' !in xs[i]
  }

  lemma {:induction false} SplitSegments(s: string)
    ensures Segments(Split(s, '/'))
  {
    if s != "" {
      SplitSegments(s[1..]);
    }
  }

  /** Cleaning follows the walk: while it stays inside, what is kept is as long as the walk
      is deep and has no ".."; once it leaves, ".." stays in front for good. */
  lemma {:induction false} CleanFollowsWalk(segments: seq<string>, out: seq<string>)
    requires Segments(segments) && Segments(out)
    requires ".." in out ==> out[0] == ".."
    requires "." !in out && "" !in out
    ensures var r, w := CleanSegments(segments, out), Walk(segments, |out|);
            && Segments(r) && "." !in r && "" !in r
            && (".." !in out && w.Some? ==> ".." !in r && |r| == w.value)
            && (".." in out || w.None? ==> r != [] && r[0] == "..")
    decreases |segments|
  {
    if segments != [] {
      var s, rest := segments[0], segments[1..];
      if s == "" || s == "." {
        CleanFollowsWalk(rest, out);
      } else if s == ".." && out != [] && out[|out| - 1] != ".." {
        CleanFollowsWalk(rest, out[..|out| - 1]);
      } else {
        CleanFollowsWalk(rest, out + [s]);
      }
    }
  }

  lemma FirstSegment(xs: seq<string>)
    requires xs != [] && Segments(xs)
    ensures Join(xs, '/') == ".." || HasPrefix(Join(xs, '/'), "../") <==> xs[0] == ".."
    ensures xs[0] != "." && xs[0] != "" ==> Join(xs, '/') != "."
  {
    var joined := Join(xs, '/');
    assert xs[0] <= joined;
    assert |xs| > 1 ==> joined[|xs[0]|] == '/';
    if HasPrefix(joined, "../") {
      assert joined[0] == '.' && joined[1] == '.' && joined[2] == '/';
      assert |xs[0]| <= 2;
    }
  }

  /** A Dockerfile path is accepted exactly when it is relative, has no backslash, and the
      walk along it never leaves the context and ends strictly below its root. */
  lemma SafePathStaysInside(p: string)
    ensures SafeContextPath(p) <==>
              && p != "" && '\\' !in p && p[0] != '/'
              && Walk(Split(p, '/'), 0).Some? && Walk(Split(p, '/'), 0).value > 0
  {
    SplitSegments(p);
    var out := CleanSegments(Split(p, '/'), []);
    CleanFollowsWalk(Split(p, '/'), []);
    if out != [] {
      assert out[0] in out;
      FirstSegment(out);
    }
  }

  // ---- Validation ----

  datatype Problem =
    | NameMissing(i: nat) | NameDuplicate(i: nat) | NameReserved(i: nat) | NameMalformed(i: nat)
    | RepoMissing(i: nat) | DockerfileMissing(i: nat) | DockerfileUnsafe(i: nat) | PortRange(i: nat)
    | PrefixMissing(i: nat) | PrefixNotRooted(i: nat) | PrefixCollides(i: nat) | RoleUnknown(i: nat)
    | ProbeArgEmpty(i: nat, j: nat)
    | NoServices | UiCount(n: nat)
    | EngineMissing | EngineUnsupported | VersionMissing
    | EnvNameMissing(i: nat) | EnvNameReserved(i: nat) | EnvSourceUnknown(i: nat)
    | HostMissing(i: nat) | HostMalformed(i: nat) | RulePortRange(i: nat)
    | SeedServiceMissing | SeedServiceUndeclared | SeedCommandMissing | SeedWithoutDb

  /** The name occurs before place i. */
  predicate NamedBefore(ss: seq<Service>, i: nat, name: string)
    requires i <= |ss|
  {
    exists j :: 0 <= j < i && ss[j].name == name
  }

  /** A usable API prefix equal to this one occurs before place i. */
  predicate MountedBefore(ss: seq<Service>, i: nat, prefix: string)
    requires i <= |ss|
  {
    exists j :: 0 <= j < i && ss[j].role == API && ss[j].pathPrefix == prefix
  }

  /** The rules of one service, given the services before it. */
  ghost predicate ServiceBroken(ss: seq<Service>, i: nat, p: Problem)
    requires i < |ss|
  {
    var s := ss[i];
    match p
    case NameMissing(k) => k == i && s.name == ""
    case NameDuplicate(k) => k == i && s.name != "" && NamedBefore(ss, i, s.name)
    case NameReserved(k) => k == i && s.name in RESERVED_SERVICES && !NamedBefore(ss, i, s.name)
    case NameMalformed(k) =>
      k == i && s.name != "" && s.name !in RESERVED_SERVICES && !NamedBefore(ss, i, s.name) && !SafeName(s.name)
    case RepoMissing(k) => k == i && s.repo == ""
    case DockerfileMissing(k) => k == i && s.dockerfile == ""
    case DockerfileUnsafe(k) => k == i && s.dockerfile != "" && !SafeContextPath(s.dockerfile)
    case PortRange(k) => k == i && !Port(s.port)
    case PrefixMissing(k) => k == i && s.role == API && s.pathPrefix == ""
    case PrefixNotRooted(k) => k == i && s.role == API && s.pathPrefix != "" && !HasPrefix(s.pathPrefix, "/")
    case PrefixCollides(k) =>
      k == i && s.role == API && HasPrefix(s.pathPrefix, "/") && MountedBefore(ss, i, s.pathPrefix)
    case RoleUnknown(k) => k == i && s.role.OtherRole?
    case ProbeArgEmpty(k, j) => k == i && j < |s.healthcheck| && s.healthcheck[j] == ""
    case _ => false
  }

  function UiServices(ss: seq<Service>): set<nat>
  {
    set i: nat | i < |ss| && ss[i].role == UI
  }

  /** The rules of everything but the services. */
  ghost predicate OtherBroken(m: Manifest, p: Problem)
  {
    match p
    case NoServices => m.services == []
    case UiCount(n) => m.services != [] && n == |UiServices(m.services)| && n != 1
    case EngineMissing => m.db.Some? && m.db.value.engine == ""
    case EngineUnsupported => m.db.Some? && m.db.value.engine !in {"", "postgres"}
    case VersionMissing => m.db.Some? && m.db.value.version == ""
    case EnvNameMissing(i) => i < |m.env| && m.env[i].name == ""
    case EnvNameReserved(i) => i < |m.env| && Lower(m.env[i].name) in RESERVED_ENV
    case EnvSourceUnknown(i) => i < |m.env| && m.env[i].source.OtherSource?
    case HostMissing(i) => i < |m.egress| && m.egress[i].host == ""
    case HostMalformed(i) => i < |m.egress| && m.egress[i].host != "" && !EgressHost(m.egress[i].host)
    case RulePortRange(i) => i < |m.egress| && !Port(m.egress[i].port)
    case SeedServiceMissing => m.seed.Some? && m.seed.value.service == ""
    case SeedServiceUndeclared =>
      m.seed.Some? && m.seed.value.service != "" && !NamedBefore(m.services, |m.services|, m.seed.value.service)
    case SeedCommandMissing => m.seed.Some? && m.seed.value.command == []
    case SeedWithoutDb => m.seed.Some? && m.db.None?
    case _ => false
  }

  ghost predicate Broken(m: Manifest, p: Problem)
  {
    OtherBroken(m, p) || exists i :: 0 <= i < |m.services| && ServiceBroken(m.services, i, p)
  }

  predicate AboutName(p: Problem) { p.NameMissing? || p.NameDuplicate? || p.NameReserved? || p.NameMalformed? }

  predicate AboutSource(p: Problem) { p.RepoMissing? || p.DockerfileMissing? || p.DockerfileUnsafe? || p.PortRange? }

  predicate AboutMount(p: Problem) { p.PrefixMissing? || p.PrefixNotRooted? || p.PrefixCollides? || p.RoleUnknown? }

  method CheckName(ss: seq<Service>, i: nat, seen: set<string>) returns (errs: seq<Problem>, seen': set<string>)
    requires i < |ss|
    requires forall name :: name in seen <==> NamedBefore(ss, i, name)
    ensures forall p :: p in errs <==> AboutName(p) && ServiceBroken(ss, i, p)
    ensures forall name :: name in seen' <==> NamedBefore(ss, i + 1, name)
  {
    var s := ss[i];
    errs := [];
    if s.name == "" {
      errs := errs + [NameMissing(i)];
    } else if s.name in seen {
      errs := errs + [NameDuplicate(i)];
    } else if s.name in RESERVED_SERVICES {
      errs := errs + [NameReserved(i)];
    } else if !SafeName(s.name) {
      errs := errs + [NameMalformed(i)];
    }
    seen' := seen + {s.name};
  }

  method CheckSource(ss: seq<Service>, i: nat) returns (errs: seq<Problem>)
    requires i < |ss|
    ensures forall p :: p in errs <==> AboutSource(p) && ServiceBroken(ss, i, p)
  {
    var s := ss[i];
    errs := [];
    if s.repo == "" {
      errs := errs + [RepoMissing(i)];
    }
    if s.dockerfile == "" {
      errs := errs + [DockerfileMissing(i)];
    } else if !SafeContextPath(s.dockerfile) {
      errs := errs + [DockerfileUnsafe(i)];
    }
    if !Port(s.port) {
      errs := errs + [PortRange(i)];
    }
  }

  method CheckMount(ss: seq<Service>, i: nat, prefixes: map<string, string>)
    returns (errs: seq<Problem>, prefixes': map<string, string>)
    requires i < |ss|
    requires forall x :: x in prefixes <==> HasPrefix(x, "/") && MountedBefore(ss, i, x)
    ensures forall p :: p in errs <==> AboutMount(p) && ServiceBroken(ss, i, p)
    ensures forall x :: x in prefixes' <==> HasPrefix(x, "/") && MountedBefore(ss, i + 1, x)
  {
    var s := ss[i];
    errs, prefixes' := [], prefixes;
    match s.role {
      case UI =>
      case API =>
        if s.pathPrefix == "" {
          errs := errs + [PrefixMissing(i)];
        } else if !HasPrefix(s.pathPrefix, "/") {
          errs := errs + [PrefixNotRooted(i)];
        } else if s.pathPrefix in prefixes {
          errs := errs + [PrefixCollides(i)];
        } else {
          prefixes' := prefixes[s.pathPrefix := s.name];
        }
      case OtherRole(_) =>
        errs := errs + [RoleUnknown(i)];
    }
  }

  method CheckProbe(ss: seq<Service>, i: nat) returns (errs: seq<Problem>)
    requires i < |ss|
    ensures forall p :: p in errs <==> p.ProbeArgEmpty? && ServiceBroken(ss, i, p)
  {
    errs := [];
    for j := 0 to |ss[i].healthcheck|
      invariant forall p :: p in errs <==> p.ProbeArgEmpty? && p.j < j && ServiceBroken(ss, i, p)
    {
      if ss[i].healthcheck[j] == "" {
        errs := errs + [ProbeArgEmpty(i, j)];
      }
    }
  }

  lemma ServiceKinds(ss: seq<Service>, i: nat, p: Problem)
    requires i < |ss| && ServiceBroken(ss, i, p)
    ensures AboutName(p) || AboutSource(p) || AboutMount(p) || p.ProbeArgEmpty?
  {
  }

  /** One pass of the service loop: seen and prefixes are what the loop carries along. */
  method CheckService(ss: seq<Service>, i: nat, seen: set<string>, prefixes: map<string, string>)
    returns (errs: seq<Problem>, seen': set<string>, prefixes': map<string, string>)
    requires i < |ss|
    requires forall name :: name in seen <==> NamedBefore(ss, i, name)
    requires forall x :: x in prefixes <==> HasPrefix(x, "/") && MountedBefore(ss, i, x)
    ensures forall p :: p in errs <==> ServiceBroken(ss, i, p)
    ensures forall name :: name in seen' <==> NamedBefore(ss, i + 1, name)
    ensures forall x :: x in prefixes' <==> HasPrefix(x, "/") && MountedBefore(ss, i + 1, x)
  {
    var name, source, mount, probe;
    name, seen' := CheckName(ss, i, seen);
    source := CheckSource(ss, i);
    mount, prefixes' := CheckMount(ss, i, prefixes);
    probe := CheckProbe(ss, i);
    errs := name + source + mount + probe;
    forall p | ServiceBroken(ss, i, p) ensures p in errs { ServiceKinds(ss, i, p); }
  }

  /** Validate reports exactly the broken rules, and none exactly when the contract holds. */
  method Validate(m: Manifest) returns (errs: seq<Problem>)
    ensures forall p :: p in errs <==> Broken(m, p)
    ensures errs == [] <==> Contract(m)
  {
    errs := [];
    var uiCount := 0;
    var seen: set<string>, prefixes: map<string, string> := {}, map[];
    for i := 0 to |m.services|
      invariant forall name :: name in seen <==> NamedBefore(m.services, i, name)
      invariant forall x :: x in prefixes <==> HasPrefix(x, "/") && MountedBefore(m.services, i, x)
      invariant uiCount == |UiServices(m.services[..i])|
      invariant forall p :: p in errs <==> exists k :: 0 <= k < i && ServiceBroken(m.services, k, p)
    {
      var found;
      found, seen, prefixes := CheckService(m.services, i, seen, prefixes);
      errs := errs + found;
      UiServicesNext(m.services, i);
      if m.services[i].role == UI {
        uiCount := uiCount + 1;
      }
    }
    assert m.services[..|m.services|] == m.services;
    var others := CheckRest(m, uiCount, seen);
    errs := errs + others;
    assert errs == [] <==> forall p :: p !in errs by {
      assert errs != [] ==> errs[0] in errs;
    }
    ValidIffContract(m);
  }

  lemma UiServicesNext(ss: seq<Service>, i: nat)
    requires i < |ss|
    ensures |UiServices(ss[..i + 1])| == |UiServices(ss[..i])| + if ss[i].role == UI then 1 else 0
  {
    var added := if ss[i].role == UI then {i} else {};
    assert UiServices(ss[..i + 1]) == UiServices(ss[..i]) + added;
  }

  method CheckRest(m: Manifest, uiCount: nat, seen: set<string>) returns (errs: seq<Problem>)
    requires uiCount == |UiServices(m.services)|
    requires forall name :: name in seen <==> NamedBefore(m.services, |m.services|, name)
    ensures forall p :: p in errs <==> OtherBroken(m, p)
  {
    var shape := CheckShape(m, uiCount);
    var env := CheckEnv(m);
    var egress := CheckEgress(m);
    var seed := CheckSeed(m, seen);
    errs := shape + env + egress + seed;
    forall p
      ensures OtherBroken(m, p) ==> AboutShape(p) || AboutEnv(p) || AboutEgress(p) || AboutSeed(p)
    {
      OtherKinds(m, p);
    }
  }

  lemma OtherKinds(m: Manifest, p: Problem)
    ensures OtherBroken(m, p) ==> AboutShape(p) || AboutEnv(p) || AboutEgress(p) || AboutSeed(p)
  {
  }

  predicate AboutShape(p: Problem)
  {
    p.NoServices? || p.UiCount? || p.EngineMissing? || p.EngineUnsupported? || p.VersionMissing?
  }

  /** The services as a whole, and the db. */
  method CheckShape(m: Manifest, uiCount: nat) returns (errs: seq<Problem>)
    requires uiCount == |UiServices(m.services)|
    ensures forall p :: p in errs <==> AboutShape(p) && OtherBroken(m, p)
  {
    errs := [];
    if |m.services| == 0 {
      errs := errs + [NoServices];
    } else if uiCount != 1 {
      errs := errs + [UiCount(uiCount)];
    }
    if m.db.Some? {
      if m.db.value.engine == "" {
        errs := errs + [EngineMissing];
      } else if m.db.value.engine != "postgres" {
        errs := errs + [EngineUnsupported];
      }
      if m.db.value.version == "" {
        errs := errs + [VersionMissing];
      }
    }
  }

  predicate AboutSeed(p: Problem)
  {
    p.SeedServiceMissing? || p.SeedServiceUndeclared? || p.SeedCommandMissing? || p.SeedWithoutDb?
  }

  method CheckSeed(m: Manifest, seen: set<string>) returns (errs: seq<Problem>)
    requires forall name :: name in seen <==> NamedBefore(m.services, |m.services|, name)
    ensures forall p :: p in errs <==> AboutSeed(p) && OtherBroken(m, p)
  {
    errs := [];
    if m.seed.Some? {
      if m.seed.value.service == "" {
        errs := errs + [SeedServiceMissing];
      } else if m.seed.value.service !in seen {
        errs := errs + [SeedServiceUndeclared];
      }
      if |m.seed.value.command| == 0 {
        errs := errs + [SeedCommandMissing];
      }
      if m.db.None? {
        errs := errs + [SeedWithoutDb];
      }
    }
  }

  predicate AboutEnv(p: Problem) { p.EnvNameMissing? || p.EnvNameReserved? || p.EnvSourceUnknown? }

  method CheckEnv(m: Manifest) returns (errs: seq<Problem>)
    ensures forall p :: p in errs <==> AboutEnv(p) && OtherBroken(m, p)
  {
    errs := [];
    for i := 0 to |m.env|
      invariant forall p :: p in errs <==> AboutEnv(p) && p.i < i && OtherBroken(m, p)
    {
      var e := m.env[i];
      if e.name == "" {
        errs := errs + [EnvNameMissing(i)];
      } else if Lower(e.name) in RESERVED_ENV {
        errs := errs + [EnvNameReserved(i)];
      }
      if e.source.OtherSource? {
        errs := errs + [EnvSourceUnknown(i)];
      }
    }
  }

  predicate AboutEgress(p: Problem) { p.HostMissing? || p.HostMalformed? || p.RulePortRange? }

  method CheckEgress(m: Manifest) returns (errs: seq<Problem>)
    ensures forall p :: p in errs <==> AboutEgress(p) && OtherBroken(m, p)
  {
    errs := [];
    for i := 0 to |m.egress|
      invariant forall p :: p in errs <==> AboutEgress(p) && p.i < i && OtherBroken(m, p)
    {
      var r := m.egress[i];
      if r.host == "" {
        errs := errs + [HostMissing(i)];
      } else if !EgressHost(r.host) {
        errs := errs + [HostMalformed(i)];
      }
      if !Port(r.port) {
        errs := errs + [RulePortRange(i)];
      }
    }
  }

  /** Each name with its value: of services of one name, the last one's. */
  function ByName(services: seq<Service>, values: seq<string>): map<string, string>
    requires |services| == |values|
  {
    if services == [] then map[]
    else
      var n := |services| - 1;
      ByName(services[..n], values[..n])[services[n].name := values[n]]
  }

  function DockerfilesOf(services: seq<Service>): seq<string>
  {
    seq(|services|, i requires 0 <= i < |services| => services[i].dockerfile)
  }

  /** The Dockerfile each service of the manifest is to be built with. */
  function Dockerfiles(m: Manifest): map<string, string> { ByName(m.services, DockerfilesOf(m.services)) }

  /** The characters of names, hosts and ports. */
  lemma NamesAre(s: string, port: int)
    ensures SafeName(s) <==>
              && s != "" && s[0] != '-'
              && forall c :: c in s ==> 'a' <= c <= 'z' || '0' <= c <= '9' || c == '-'
    ensures EgressHost(s) <==>
              && s != "" && s[0] !in "-." && s[|s| - 1] !in "-."
              && forall c :: c in s ==>
                   'a' <= c <= 'z' || 'A' <= c <= 'Z' || '0' <= c <= '9' || c == '-' || c == '.'
    ensures Port(port) <==> 0 < port < 0x1_0000
  {
    assert forall i :: 0 <= i < |s| ==> s[i] in s;
    assert "-."[0] == '-' && "-."[1] == '.';
  }

  // ---- What an accepted manifest promises ----

  ghost predicate ServiceContract(s: Service)
  {
    && SafeName(s.name) && s.name !in RESERVED_SERVICES
    && s.repo != "" && SafeContextPath(s.dockerfile) && Port(s.port)
    && !s.role.OtherRole? && "" !in s.healthcheck
    && (s.role == API ==> HasPrefix(s.pathPrefix, "/"))
  }

  ghost predicate DistinctNames(ss: seq<Service>)
  {
    forall i, j :: 0 <= i < j < |ss| ==> ss[i].name != ss[j].name
  }

  ghost predicate DistinctMounts(ss: seq<Service>)
  {
    forall i, j :: 0 <= i < j < |ss| && ss[i].role == API && ss[j].role == API ==> ss[i].pathPrefix != ss[j].pathPrefix
  }

  ghost predicate OneUi(ss: seq<Service>)
  {
    exists i :: 0 <= i < |ss| && ss[i].role == UI && forall j :: 0 <= j < |ss| && ss[j].role == UI ==> j == i
  }

  ghost predicate RestContract(m: Manifest)
  {
    && (m.db.Some? ==> m.db.value.engine == "postgres" && m.db.value.version != "")
    && (forall i :: 0 <= i < |m.env| ==>
          m.env[i].name != "" && Lower(m.env[i].name) !in RESERVED_ENV && !m.env[i].source.OtherSource?)
    && (forall i :: 0 <= i < |m.egress| ==> EgressHost(m.egress[i].host) && Port(m.egress[i].port))
    && (m.seed.Some? ==>
          && m.db.Some? && m.seed.value.command != [] && m.seed.value.service != ""
          && exists i :: 0 <= i < |m.services| && m.services[i].name == m.seed.value.service)
  }

  /** The run contract, stated without reference to the order Validate works in. */
  ghost predicate Contract(m: Manifest)
  {
    && (forall i :: 0 <= i < |m.services| ==> ServiceContract(m.services[i]))
    && DistinctNames(m.services) && DistinctMounts(m.services) && OneUi(m.services)
    && RestContract(m)
  }

  /** Of an API's prefix the contract asks only for a leading '/' and that no other has it. */
  lemma AnyRootedPrefixIsFree(m: Manifest, i: nat, prefix: string)
    requires Contract(m) && i < |m.services| && m.services[i].role == API && HasPrefix(prefix, "/")
    requires forall j :: 0 <= j < |m.services| ==> m.services[j].pathPrefix != prefix
    ensures Contract(m.(services := m.services[i := m.services[i].(pathPrefix := prefix)]))
  {
    var edited := m.services[i := m.services[i].(pathPrefix := prefix)];
    assert forall j :: 0 <= j < |edited| ==>
      edited[j].name == m.services[j].name && edited[j].role == m.services[j].role;
    assert ServiceContract(m.services[i]) && edited[i] == m.services[i].(pathPrefix := prefix);
  }

  /** No rule is broken exactly when the contract holds. */
  lemma ValidIffContract(m: Manifest)
    ensures (forall p :: !Broken(m, p)) <==> Contract(m)
  {
    if forall p :: !Broken(m, p) {
      forall i | 0 <= i < |m.services| ensures ServiceContract(m.services[i]) {
        forall p ensures !ServiceBroken(m.services, i, p) { assert !Broken(m, p); }
        UnbrokenService(m.services, i);
      }
      UnbrokenPairs(m);
      UnbrokenUi(m);
      UnbrokenRest(m);
    }
    if Contract(m) {
      forall p ensures !Broken(m, p) {
        forall i | 0 <= i < |m.services| ensures !ServiceBroken(m.services, i, p) {
          ContractServiceUnbroken(m, i, p);
        }
        ContractRestUnbroken(m, p);
      }
    }
  }

  lemma UnbrokenService(ss: seq<Service>, i: nat)
    requires i < |ss| && forall p :: !ServiceBroken(ss, i, p)
    ensures ServiceContract(ss[i])
    ensures !NamedBefore(ss, i, ss[i].name)
    ensures ss[i].role == API ==> !MountedBefore(ss, i, ss[i].pathPrefix)
  {
    assert !ServiceBroken(ss, i, NameMissing(i));
    assert !ServiceBroken(ss, i, NameDuplicate(i));
    assert !ServiceBroken(ss, i, NameReserved(i));
    assert !ServiceBroken(ss, i, NameMalformed(i));
    assert !ServiceBroken(ss, i, RepoMissing(i));
    assert !ServiceBroken(ss, i, DockerfileMissing(i));
    assert !ServiceBroken(ss, i, DockerfileUnsafe(i));
    assert !ServiceBroken(ss, i, PortRange(i));
    assert !ServiceBroken(ss, i, PrefixMissing(i));
    assert !ServiceBroken(ss, i, PrefixNotRooted(i));
    assert !ServiceBroken(ss, i, PrefixCollides(i));
    assert !ServiceBroken(ss, i, RoleUnknown(i));
    forall j | 0 <= j < |ss[i].healthcheck| ensures ss[i].healthcheck[j] != "" {
      assert !ServiceBroken(ss, i, ProbeArgEmpty(i, j));
    }
  }

  lemma UnbrokenPairs(m: Manifest)
    requires forall p :: !Broken(m, p)
    ensures DistinctNames(m.services) && DistinctMounts(m.services)
  {
    forall i, j | 0 <= i < j < |m.services|
      ensures m.services[i].name != m.services[j].name
      ensures m.services[i].role == API && m.services[j].role == API ==>
                m.services[i].pathPrefix != m.services[j].pathPrefix
    {
      forall p ensures !ServiceBroken(m.services, j, p) { assert !Broken(m, p); }
      UnbrokenService(m.services, j);
    }
  }

  lemma UnbrokenUi(m: Manifest)
    requires forall p :: !Broken(m, p)
    ensures OneUi(m.services)
  {
    var uis := UiServices(m.services);
    assert !Broken(m, NoServices) && !Broken(m, UiCount(|uis|));
    assert |uis| == 1;
    var i :| i in uis;
    assert |uis - {i}| == 0;
    forall j: nat | j < |m.services| && m.services[j].role == UI ensures j == i {
      assert j in uis;
      assert j !in uis - {i};
    }
  }

  lemma UnbrokenRest(m: Manifest)
    requires forall p :: !Broken(m, p)
    ensures RestContract(m)
  {
    forall p ensures !OtherBroken(m, p) { assert !Broken(m, p); }
    assert !OtherBroken(m, EngineMissing) && !OtherBroken(m, EngineUnsupported) && !OtherBroken(m, VersionMissing);
    forall i | 0 <= i < |m.env|
      ensures m.env[i].name != "" && Lower(m.env[i].name) !in RESERVED_ENV && !m.env[i].source.OtherSource?
    {
      UnbrokenEnv(m, i);
    }
    forall i | 0 <= i < |m.egress| ensures EgressHost(m.egress[i].host) && Port(m.egress[i].port) {
      UnbrokenEgress(m, i);
    }
    UnbrokenSeed(m);
  }

  lemma UnbrokenEnv(m: Manifest, i: nat)
    requires i < |m.env| && forall p :: !OtherBroken(m, p)
    ensures m.env[i].name != "" && Lower(m.env[i].name) !in RESERVED_ENV && !m.env[i].source.OtherSource?
  {
    assert !OtherBroken(m, EnvNameMissing(i)) && !OtherBroken(m, EnvNameReserved(i))
           && !OtherBroken(m, EnvSourceUnknown(i));
  }

  lemma UnbrokenEgress(m: Manifest, i: nat)
    requires i < |m.egress| && forall p :: !OtherBroken(m, p)
    ensures EgressHost(m.egress[i].host) && Port(m.egress[i].port)
  {
    assert !OtherBroken(m, HostMissing(i)) && !OtherBroken(m, HostMalformed(i)) && !OtherBroken(m, RulePortRange(i));
  }

  lemma UnbrokenSeed(m: Manifest)
    requires forall p :: !OtherBroken(m, p)
    ensures m.seed.Some? ==>
          && m.db.Some? && m.seed.value.command != [] && m.seed.value.service != ""
          && exists i :: 0 <= i < |m.services| && m.services[i].name == m.seed.value.service
  {
    assert !OtherBroken(m, SeedServiceMissing) && !OtherBroken(m, SeedServiceUndeclared);
    assert !OtherBroken(m, SeedCommandMissing) && !OtherBroken(m, SeedWithoutDb);
  }

  lemma ContractServiceUnbroken(m: Manifest, i: nat, p: Problem)
    requires Contract(m) && i < |m.services|
    ensures !ServiceBroken(m.services, i, p)
  {
    assert ServiceContract(m.services[i]);
  }

  lemma ContractRestUnbroken(m: Manifest, p: Problem)
    requires Contract(m)
    ensures !OtherBroken(m, p)
  {
    var i :| 0 <= i < |m.services| && m.services[i].role == UI
      && forall j :: 0 <= j < |m.services| && m.services[j].role == UI ==> j == i;
    assert UiServices(m.services) == {i};
  }
}
