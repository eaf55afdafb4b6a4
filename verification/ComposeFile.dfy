/** Rendering a plan as a Compose document (internal/runcontract/compose.go), up to the
    maps that are marshalled: the plan's list of services becomes a map keyed by name. */
module ComposeFile {
  import opened Text
  import opened Manifest
  import opened Compile
  import opened Stack

  datatype VolumeMount = VolumeMount(kind: string, source: string, target: string)

  datatype ComposeService = ComposeService(
    image: string, runtime: string, memLimit: int, cpus: real, pidsLimit: int, readOnly: bool,
    tmpfs: seq<string>, user: string, capDrop: seq<string>, securityOpt: seq<string>, restart: string,
    environment: map<string, string>, networks: seq<string>, command: seq<string>,
    volumes: seq<VolumeMount>, dependsOn: map<string, string>, healthcheck: Option<Healthcheck>)

  datatype File = File(
    name: string, services: map<string, ComposeService>, networks: map<string, Network>, volumes: set<string>)

  function ConditionName(c: Condition): string
  {
    match c case Healthy => "service_healthy" case Completed => "service_completed_successfully"
  }

  /** What one service becomes. */
  function Rendered(s: ServiceSpec): ComposeService
  {
    ComposeService(s.image, s.runtime, s.resources.memoryBytes, s.resources.cpus, s.resources.pids, s.readOnlyRoot,
      s.tmpfs, s.user, s.capDrop, s.securityOpt, s.restart, s.env, s.networks, s.command,
      seq(|s.volumes|, i requires 0 <= i < |s.volumes| =>
        VolumeMount("volume", s.volumes[i].source, s.volumes[i].target)),
      map d | d in s.dependsOn :: ConditionName(s.dependsOn[d]), s.healthcheck)
  }

  /** Reading a rendered service back under its key. */
  function Restored(name: string, c: ComposeService): ServiceSpec
  {
    ServiceSpec(name, c.image, c.runtime, Resources(c.memLimit, c.cpus, c.pidsLimit), c.networks, c.environment,
      c.user, c.readOnly, c.tmpfs,
      seq(|c.volumes|, i requires 0 <= i < |c.volumes| => Mount(c.volumes[i].source, c.volumes[i].target)),
      c.capDrop, c.securityOpt, c.restart, c.healthcheck, c.command,
      map d | d in c.dependsOn :: if c.dependsOn[d] == "service_healthy" then Healthy else Completed)
  }

  /** The document's own words: every setting under its key, volumes in the long form, the
      conditions by the names Compose knows. */
  lemma RenderedText(s: ServiceSpec)
    ensures var c := Rendered(s);
            && c.image == s.image && c.runtime == s.runtime && c.user == s.user && c.restart == s.restart
            && c.memLimit == s.resources.memoryBytes && c.cpus == s.resources.cpus && c.pidsLimit == s.resources.pids
            && c.readOnly == s.readOnlyRoot && c.tmpfs == s.tmpfs && c.capDrop == s.capDrop
            && c.securityOpt == s.securityOpt && c.environment == s.env && c.networks == s.networks
            && c.command == s.command && c.healthcheck == s.healthcheck && |c.volumes| == |s.volumes|
            && (forall i :: 0 <= i < |s.volumes| ==>
                  c.volumes[i] == VolumeMount("volume", s.volumes[i].source, s.volumes[i].target))
            && c.dependsOn.Keys == s.dependsOn.Keys
            && (forall d :: d in s.dependsOn ==>
                  c.dependsOn[d] == match s.dependsOn[d]
                                    case Healthy => "service_healthy"
                                    case Completed => "service_completed_successfully")
  {
  }

  lemma RenderingLosesNothing(s: ServiceSpec)
    ensures Restored(s.name, Rendered(s)) == s
  {
    var back := Restored(s.name, Rendered(s));
    assert back.volumes == s.volumes;
    forall d | d in s.dependsOn ensures back.dependsOn[d] == s.dependsOn[d] {
      assert ConditionName(Healthy) != ConditionName(Completed);
    }
    assert back.dependsOn == s.dependsOn;
  }

  /** Every key holds the last service of that name, every network the last of its name. */
  method ToCompose(p: Plan) returns (file: File)
    ensures file.name == p.project
    ensures KeyedByName(p.services, file.services)
    ensures file.networks == (if p.egressNetwork.None? then map[p.network.name := p.network]
              else map[p.network.name := p.network][p.egressNetwork.value.name := p.egressNetwork.value])
    ensures forall v :: v in file.volumes <==> v in p.volumes
  {
    var networks := map[p.network.name := p.network];
    if p.egressNetwork.Some? {
      networks := networks[p.egressNetwork.value.name := p.egressNetwork.value];
    }
    var volumes: set<string> := {};
    for i := 0 to |p.volumes|
      invariant forall v :: v in volumes <==> v in p.volumes[..i]
    {
      volumes := volumes + {p.volumes[i]};
    }
    var services: map<string, ComposeService> := map[];
    for i := 0 to |p.services|
      invariant KeyedByName(p.services[..i], services)
    {
      var cs := RenderService(p.services[i]);
      OneMoreKey(p.services, i, services);
      services := services[p.services[i].name := cs];
    }
    assert p.services[..|p.services|] == p.services;
    file := File(p.project, services, networks, volumes);
  }

  lemma OneMoreKey(specs: seq<ServiceSpec>, i: nat, services: map<string, ComposeService>)
    requires i < |specs| && KeyedByName(specs[..i], services)
    ensures KeyedByName(specs[..i + 1], services[specs[i].name := Rendered(specs[i])])
  {
    var now, before, n := specs[..i + 1], specs[..i], specs[i].name;
    forall k | 0 <= k < |before| ensures before[k] == now[k] {}
    assert NamesOf(now) == NamesOf(before) + {n} by {
      assert now[i].name == n;
      forall x | x in NamesOf(before) ensures x in NamesOf(now) {
        var k :| 0 <= k < |before| && before[k].name == x;
        assert now[k].name == x;
      }
    }
    forall k | 0 <= k < |now| && (forall j :: k < j < |now| ==> now[j].name != now[k].name)
      ensures now[k].name in services[n := Rendered(specs[i])]
      ensures services[n := Rendered(specs[i])][now[k].name] == Rendered(now[k])
    {
      if k < i {
        assert now[i].name != now[k].name;
        forall j | k < j < |before| ensures before[j].name != before[k].name {
          assert now[j] == before[j];
        }
      }
    }
  }

  method RenderService(s: ServiceSpec) returns (cs: ComposeService)
    ensures cs == Rendered(s)
  {
    cs := ComposeService(s.image, s.runtime, s.resources.memoryBytes, s.resources.cpus, s.resources.pids,
                         s.readOnlyRoot,
      s.tmpfs, s.user, s.capDrop, s.securityOpt, s.restart, s.env, s.networks, s.command, [], map[], s.healthcheck);
    ghost var all := Rendered(s);
    for i := 0 to |s.volumes|
      invariant cs == all.(dependsOn := map[], volumes := all.volumes[..i])
    {
      assert all.volumes[..i + 1] == all.volumes[..i] + [all.volumes[i]];
      assert all.volumes[i] == VolumeMount("volume", s.volumes[i].source, s.volumes[i].target);
      cs := cs.(volumes := cs.volumes + [VolumeMount("volume", s.volumes[i].source, s.volumes[i].target)]);
    }
    assert all.volumes[..|s.volumes|] == all.volumes;
    var left := s.dependsOn.Keys;
    while left != {}
      invariant left <= s.dependsOn.Keys
      invariant cs == all.(dependsOn := all.dependsOn - left)
      decreases left
    {
      var d :| d in left;
      assert all.dependsOn - (left - {d}) == (all.dependsOn - left)[d := ConditionName(s.dependsOn[d])];
      cs := cs.(dependsOn := cs.dependsOn[d := ConditionName(s.dependsOn[d])]);
      left := left - {d};
    }
    assert all.dependsOn - {} == all.dependsOn;
  }

  /** What ToCompose promises of the services map. */
  ghost predicate KeyedByName(specs: seq<ServiceSpec>, services: map<string, ComposeService>)
  {
    && services.Keys == NamesOf(specs)
    && forall i :: 0 <= i < |specs| && (forall j :: i < j < |specs| ==> specs[j].name != specs[i].name) ==>
         specs[i].name in services && services[specs[i].name] == Rendered(specs[i])
  }

  /** For a compiled plan the map has one entry per service, and each reads back as the
      service it came from: no platform service is overwritten, none is lost. */
  lemma CompiledFileIsLossless(m: Manifest, opts: Options, services: map<string, ComposeService>)
    requires Compilable(m, opts) && KeyedByName(PlanOf(m, opts).services, services)
    ensures |services| == |PlanOf(m, opts).services|
    ensures forall s :: s in PlanOf(m, opts).services ==>
              s.name in services && Restored(s.name, services[s.name]) == s
  {
    PlanNamesDistinct(m, opts);
    DistinctIsLossless(PlanOf(m, opts).services, services);
  }

  lemma DistinctIsLossless(specs: seq<ServiceSpec>, services: map<string, ComposeService>)
    requires DistinctSpecs(specs) && KeyedByName(specs, services)
    ensures |services| == |specs|
    ensures forall s :: s in specs ==> s.name in services && Restored(s.name, services[s.name]) == s
  {
    forall s | s in specs ensures s.name in services && Restored(s.name, services[s.name]) == s {
      RenderingLosesNothing(s);
    }
    DistinctCount(specs);
    assert |services.Keys| == |specs|;
  }

  function NamesOf(specs: seq<ServiceSpec>): set<string>
  {
    set i | 0 <= i < |specs| :: specs[i].name
  }

  lemma {:induction false} DistinctCount(specs: seq<ServiceSpec>)
    requires DistinctSpecs(specs)
    ensures |NamesOf(specs)| == |specs|
  {
    if specs != [] {
      var init, last := specs[..|specs| - 1], specs[|specs| - 1];
      DistinctCount(init);
      assert NamesOf(specs) == NamesOf(init) + {last.name} by {
        forall i | 0 <= i < |specs| ensures specs[i].name in NamesOf(init) + {last.name} {
          if i < |init| { assert init[i] == specs[i]; }
        }
        forall i | 0 <= i < |init| ensures init[i].name in NamesOf(specs) { assert specs[i] == init[i]; }
      }
      assert last.name !in NamesOf(init);
    }
  }

  /** The rendered Stack keeps its sealed network exactly when the outbound network, if there
      is one, has another name. Nothing in Compile itself enforces that; the names the
      Runner passes do. */
  lemma SealedNetworkSurvives(p: Plan, networks: map<string, Network>)
    requires p.network.internal && (p.egressNetwork.Some? ==> !p.egressNetwork.value.internal)
    requires networks == (if p.egressNetwork.None? then map[p.network.name := p.network]
               else map[p.network.name := p.network][p.egressNetwork.value.name := p.egressNetwork.value])
    ensures networks[p.network.name].internal <==>
              (p.egressNetwork.Some? ==> p.egressNetwork.value.name != p.network.name)
  {
  }
}
