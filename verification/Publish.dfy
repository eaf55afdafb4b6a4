/** Publishing a Project and playing it later (cmd/controlplane/main.go:224-263 and 375-410,
    internal/builder/source.go, internal/project/publisher.go, internal/project/source.go):
    one HEAD per repository, every service built at its repository's commit, the commits
    recorded, and the same commits built again, from the cache, when a Guest plays. */
module Publish {
  import opened Text
  import opened Manifest
  import opened ImageCache
  import P = Projects

  /** What the world outside answers. parse gives a repo reference's owner/repo key in lower
      case; head answers the k-th question for a repository's HEAD; the rest is per build. */
  datatype Io = Io(
    parse: string -> Option<string>, head: (string, nat) -> Option<string>,
    context: nat -> bool, build: nat -> bool, rm: string -> bool)

  predicate IsSha(s: string) { |s| == 40 }

  /** Resolving a commit yields a full sha or fails. */
  ghost predicate Shas(io: Io)
  {
    forall k: string, n: nat :: io.head(k, n).Some? ==> IsSha(io.head(k, n).value)
  }

  // ---- Building every service ----

  function ImageName(projectId: string, service: string): string { "showcase/" + projectId + "-" + service }

  /** A service's own pinned commit, or the Project's. */
  function CommitFor(s: Service, commit: string, commits: P.Commits): string
  {
    if s.name in commits && commits[s.name] != "" then commits[s.name] else commit
  }

  function ImageFor(projectId: string, s: Service, commit: string, commits: P.Commits): Image
  {
    Image(ImageName(projectId, s.name), CommitFor(s, commit, commits))
  }

  function ImagesFor(projectId: string, services: seq<Service>, commit: string, commits: P.Commits): seq<Image>
  {
    seq(|services|, i requires 0 <= i < |services| => ImageFor(projectId, services[i], commit, commits))
  }

  ghost predicate Pinned(services: seq<Service>, commit: string, commits: P.Commits)
  {
    forall i :: 0 <= i < |services| ==> CommitFor(services[i], commit, commits) != ""
  }

  ghost predicate Parsed(services: seq<Service>, io: Io)
  {
    forall i :: 0 <= i < |services| ==> io.parse(services[i].repo).Some?
  }

  /** Which builds would work out. */
  function Builds(io: Io): nat -> bool { (n: nat) => io.context(n) && io.build(n) }

  /** The cache after the images were asked for one after the other, each served. */
  function Warmed(list: seq<Image>, max: nat, images: seq<Image>): seq<Image>
  {
    if images == [] then list
    else Cut(ToFront(Warmed(list, max, images[..|images| - 1]), images[|images| - 1]), max)
  }

  predicate AllServed(list: seq<Image>, max: nat, images: seq<Image>, ok: nat -> bool)
  {
    forall n :: 0 <= n < |images| ==> ServedAt(list, max, images, ok, n)
  }

  predicate ServedAt(list: seq<Image>, max: nat, images: seq<Image>, ok: nat -> bool, n: nat)
    requires n < |images|
  {
    Served(Warmed(list, max, images[..n]), images[n], ok(n))
  }

  /** The Dockerfile behind each name's image after that. */
  function MadeWith(made: map<string, string>, list: seq<Image>, max: nat, images: seq<Image>, files: seq<string>)
    : map<string, string>
    requires |files| == |images|
  {
    if images == [] then made
    else
      var n := |images| - 1;
      var before := MadeWith(made, list, max, images[..n], files[..n]);
      MadeAfter(before, Warmed(list, max, images[..n]), images[n], files[n], true)
  }

  function FileOf(made: map<string, string>, name: string): string { if name in made then made[name] else "" }

  /** The Dockerfile behind each image at the time it was served. */
  function FilesServed(made: map<string, string>, list: seq<Image>, max: nat, images: seq<Image>, files: seq<string>)
    : (served: seq<string>)
    requires |files| == |images|
    ensures |served| == |images|
  {
    seq(|images|, n requires 0 <= n < |images| =>
      FileOf(MadeWith(made, list, max, images[..n + 1], files[..n + 1]), images[n].name))
  }

  /** The spec of one service's build, the n-th; a pinned commit asks no network. */
  function GitBuildSpec(projectId: string, s: Service, commit: string, io: Io, n: nat): Option<Image>
  {
    match io.parse(s.repo)
    case None => None
    case Some(key) =>
      if commit != "" then Some(Image(ImageName(projectId, s.name), commit))
      else
        match io.head(key, n)
        case None => None
        case Some(sha) => Some(Image(ImageName(projectId, s.name), sha))
  }

  function SpecOf(projectId: string, services: seq<Service>, commit: string, commits: P.Commits, io: Io,
                  i: nat): Option<Image>
    requires i < |services|
  {
    GitBuildSpec(projectId, services[i], CommitFor(services[i], commit, commits), io, i)
  }

  ghost predicate AllSpecified(projectId: string, services: seq<Service>, commit: string, commits: P.Commits, io: Io)
  {
    forall i :: 0 <= i < |services| ==> SpecOf(projectId, services, commit, commits, io, i).Some?
  }

  /** The images asked for, as far as they can be specified. */
  function Asked(projectId: string, services: seq<Service>, commit: string, commits: P.Commits, io: Io): seq<Image>
  {
    seq(|services|, i requires 0 <= i < |services| =>
      SpecOf(projectId, services, commit, commits, io, i).GetOr(Image("", "")))
  }

  /** No later service has this one's name. */
  ghost predicate LastOfName(services: seq<Service>, i: nat)
    requires i < |services|
  {
    forall j :: i < j < |services| ==> services[j].name != services[i].name
  }

  lemma ByNameNext(services: seq<Service>, values: seq<string>, n: nat)
    requires n < |services| == |values|
    ensures ByName(services[..n + 1], values[..n + 1])
            == ByName(services[..n], values[..n])[services[n].name := values[n]]
  {
    assert services[..n + 1][..n] == services[..n] && values[..n + 1][..n] == values[..n];
  }

  lemma {:induction false} NamesAre(services: seq<Service>, values: seq<string>, k: string)
    requires |services| == |values|
    ensures k in ByName(services, values) <==> exists i :: 0 <= i < |services| && services[i].name == k
  {
    if services != [] {
      var n := |services| - 1;
      NamesAre(services[..n], values[..n], k);
      assert forall i :: 0 <= i < n ==> services[..n][i] == services[i];
    }
  }

  lemma {:induction false} LastValue(services: seq<Service>, values: seq<string>, i: nat)
    requires i < |services| == |values| && LastOfName(services, i)
    ensures services[i].name in ByName(services, values) && ByName(services, values)[services[i].name] == values[i]
  {
    var n := |services| - 1;
    if i < n {
      assert services[..n][i] == services[i] && services[n].name != services[i].name;
      assert forall j :: i < j < n ==> services[..n][j] == services[j];
      LastValue(services[..n], values[..n], i);
    }
  }

  function TagsOf(images: seq<Image>): seq<string>
  {
    seq(|images|, i requires 0 <= i < |images| => TagOf(images[i].name, images[i].version))
  }

  /** Every service at its pinned commit, or else at its repository's HEAD: it succeeds exactly
      when each image is specified and served, and yields the tag of each, whatever the cache
      holds. files are the Dockerfiles behind the images as they were served. */
  method BuildServices(builder: Builder, projectId: string, services: seq<Service>, commit: string, commits: P.Commits,
                       io: Io)
    returns (images: Option<map<string, string>>, ghost files: map<string, string>)
    requires builder.Valid() && builder.tick + |services| <= MAX_TICK
    modifies builder
    ensures builder.Valid()
    ensures var asked := Asked(projectId, services, commit, commits, io);
            && (images.Some? <==>
                  && AllSpecified(projectId, services, commit, commits, io)
                  && AllServed(old(builder.recent), builder.max, asked, Builds(io)))
            && (images.Some? ==>
                  && builder.recent == Warmed(old(builder.recent), builder.max, asked)
                  && images.value == ByName(services, TagsOf(asked))
                  && builder.made
                     == MadeWith(old(builder.made), old(builder.recent), builder.max, asked, DockerfilesOf(services))
                  && files == ByName(services, FilesServed(
                       old(builder.made), old(builder.recent), builder.max, asked, DockerfilesOf(services))))
    ensures images.Some? ==> forall i :: 0 <= i < |services| && LastOfName(services, i) ==>
              services[i].name in images.value
              && PinnedTag(images.value[services[i].name], projectId, services[i], commit, commits, io)
    ensures old(Backed(builder.recent, builder.made, builder.images)) && PlainNames(old(builder.recent))
            && ':' !in projectId && (forall i :: 0 <= i < |services| ==> ':' !in services[i].name) ==>
              Backed(builder.recent, builder.made, builder.images)
  {
    hide Represents, Requested, Served, AllServed, Warmed, ByName, GitBuildSpec, MadeWith, MadeAfter, FilesServed;
    hide Backed, PlainNames, Delivered, Wrapped, PinnedTag, LastOfName;
    ghost var list, all := builder.recent, Asked(projectId, services, commit, commits, io);
    ghost var made, asDeclared := builder.made, DockerfilesOf(services);
    ghost var served := FilesServed(made, list, builder.max, all, asDeclared);
    ghost var backed := && Backed(builder.recent, builder.made, builder.images) && PlainNames(builder.recent)
                        && ':' !in projectId && forall i :: 0 <= i < |services| ==> ':' !in services[i].name;
    var built: map<string, string> := map[];
    NothingAsked(list, builder.max, Builds(io), all, services, TagsOf(all), made, asDeclared, served);
    files := map[];
    for i := 0 to |services|
      invariant builder.Valid() && builder.tick + |services| - i <= MAX_TICK
      invariant builder.recent == Warmed(list, builder.max, all[..i])
      invariant AllServed(list, builder.max, all[..i], Builds(io))
      invariant forall j :: 0 <= j < i ==> SpecOf(projectId, services, commit, commits, io, j).Some?
      invariant built == ByName(services[..i], TagsOf(all)[..i])
      invariant builder.made == MadeWith(made, list, builder.max, all[..i], asDeclared[..i])
      invariant files == ByName(services[..i], served[..i])
      invariant backed ==> Backed(builder.recent, builder.made, builder.images) && PlainNames(builder.recent)
    {
      var s := services[i];
      var pin := commit;
      if s.name in commits && commits[s.name] != "" {
        pin := commits[s.name];
      }
      var spec := GitBuildSpec(projectId, s, pin, io, i);
      assert spec == SpecOf(projectId, services, commit, commits, io, i);
      if spec.None? {
        return None, files;
      }
      SpecIsNamed(projectId, services, commit, commits, io, i);
      var tag := BuildService(builder, spec.value, s.dockerfile, io, i, list, made, all, asDeclared);
      if tag.None? {
        return None, files;
      }
      ByNameNext(services, TagsOf(all), i);
      ByNameNext(services, served, i);
      built := built[s.name := tag.value];
      files := files[s.name := FileOf(builder.made, spec.value.name)];
    }
    assert all[..|services|] == all && services[..|services|] == services && TagsOf(all)[..|services|] == TagsOf(all);
    assert asDeclared[..|services|] == asDeclared && served[..|services|] == served;
    TagsSpelled(projectId, services, commit, commits, io);
    return Some(built), files;
  }

  /** One service, the i-th asked for. */
  method BuildService(builder: Builder, image: Image, dockerfile: string, io: Io, i: nat, ghost list: seq<Image>,
                      ghost made: map<string, string>, ghost all: seq<Image>, ghost files: seq<string>)
    returns (tag: Option<string>)
    requires builder.Valid() && builder.tick < MAX_TICK && i < |all| == |files|
    requires image == all[i] && dockerfile == files[i]
    requires builder.recent == Warmed(list, builder.max, all[..i]) && AllServed(list, builder.max, all[..i], Builds(io))
    requires builder.made == MadeWith(made, list, builder.max, all[..i], files[..i])
    modifies builder
    ensures builder.Valid() && builder.tick == old(builder.tick) + 1
    ensures tag.None? ==> !AllServed(list, builder.max, all, Builds(io))
    ensures tag.Some? ==>
              && tag.value == TagOf(image.name, image.version)
              && builder.recent == Warmed(list, builder.max, all[..i + 1])
              && AllServed(list, builder.max, all[..i + 1], Builds(io))
              && builder.made == MadeWith(made, list, builder.max, all[..i + 1], files[..i + 1])
              && FileOf(builder.made, image.name) == FilesServed(made, list, builder.max, all, files)[i]
    ensures old(Backed(builder.recent, builder.made, builder.images)) && PlainNames(old(builder.recent))
            && ':' !in image.name ==>
              Backed(builder.recent, builder.made, builder.images) && (tag.Some? ==> PlainNames(builder.recent))
  {
    hide Represents, Requested, Served, AllServed, Warmed, MadeWith, MadeAfter, FilesServed;
    hide Backed, PlainNames, Delivered, Wrapped;
    OneMoreAsked(list, builder.max, all, i, Builds(io));
    OneMoreMade(made, list, builder.max, all, files, i, Builds(io));
    PlainAfter(list, builder.max, all, i);
    tag := builder.Build(image, dockerfile, io.context(i), io.build(i), io.rm);
  }

  lemma NothingAsked(list: seq<Image>, max: nat, ok: nat -> bool, all: seq<Image>, services: seq<Service>,
                     tags: seq<string>, made: map<string, string>, files: seq<string>, served: seq<string>)
    requires |all| == |services| == |tags| == |files| == |served|
    ensures Warmed(list, max, all[..0]) == list && AllServed(list, max, all[..0], ok)
    ensures ByName(services[..0], tags[..0]) == map[] == ByName(services[..0], served[..0])
    ensures MadeWith(made, list, max, all[..0], files[..0]) == made
  {
  }

  lemma OneMoreMade(made: map<string, string>, list: seq<Image>, max: nat, all: seq<Image>, files: seq<string>, i: nat,
                    ok: nat -> bool)
    requires i < |all| == |files|
    ensures var before, now := Warmed(list, max, all[..i]), MadeWith(made, list, max, all[..i + 1], files[..i + 1]);
            && (Served(before, all[i], ok(i)) ==>
                  now == MadeAfter(MadeWith(made, list, max, all[..i], files[..i]), before, all[i], files[i], ok(i)))
            && FilesServed(made, list, max, all, files)[i] == FileOf(now, all[i].name)
  {
    assert all[..i + 1][..i] == all[..i] && files[..i + 1][..i] == files[..i];
  }

  /** The commit is what this repository's HEAD was when it was asked for. */
  ghost predicate WasHead(io: Io, repo: string, sha: string)
  {
    io.parse(repo).Some? && exists n: nat :: io.head(io.parse(repo).value, n) == Some(sha)
  }

  ghost predicate TagAt(tag: string, projectId: string, s: Service, commit: string)
  {
    tag == "showcase/" + projectId + "-" + s.name + ":" + if |commit| > 12 then commit[..12] else commit
  }

  /** A service's tag, spelled out: its own pin, or the Project's, cut to 12 characters; with
      neither it is at its repository's HEAD. */
  ghost predicate PinnedTag(tag: string, projectId: string, s: Service, commit: string, commits: P.Commits, io: Io)
  {
    var pin := if s.name in commits && commits[s.name] != "" then commits[s.name] else commit;
    if pin != "" then TagAt(tag, projectId, s, pin)
    else exists sha :: WasHead(io, s.repo, sha) && TagAt(tag, projectId, s, sha)
  }

  lemma TagsSpelled(projectId: string, services: seq<Service>, commit: string, commits: P.Commits, io: Io)
    requires AllSpecified(projectId, services, commit, commits, io)
    ensures var tags := ByName(services, TagsOf(Asked(projectId, services, commit, commits, io)));
            forall i :: 0 <= i < |services| && LastOfName(services, i) ==>
              services[i].name in tags
              && PinnedTag(tags[services[i].name], projectId, services[i], commit, commits, io)
  {
    var asked := Asked(projectId, services, commit, commits, io);
    forall i | 0 <= i < |services| && LastOfName(services, i)
      ensures services[i].name in ByName(services, TagsOf(asked))
      ensures PinnedTag(ByName(services, TagsOf(asked))[services[i].name], projectId, services[i], commit, commits, io)
    {
      LastValue(services, TagsOf(asked), i);
      assert SpecOf(projectId, services, commit, commits, io, i).Some?;
      if CommitFor(services[i], commit, commits) == "" {
        var sha := asked[i].version;
        assert io.head(io.parse(services[i].repo).value, i) == Some(sha);
        assert WasHead(io, services[i].repo, sha) && TagAt(TagsOf(asked)[i], projectId, services[i], sha);
      }
    }
  }

  lemma SpecIsNamed(projectId: string, services: seq<Service>, commit: string, commits: P.Commits, io: Io, i: nat)
    requires i < |services| && SpecOf(projectId, services, commit, commits, io, i).Some?
    ensures var name := SpecOf(projectId, services, commit, commits, io, i).value.name;
            && name == ImageName(projectId, services[i].name)
            && (':' !in projectId && ':' !in services[i].name ==> ':' !in name)
  {
  }

  lemma PlainAfter(list: seq<Image>, max: nat, all: seq<Image>, i: nat)
    requires i < |all|
    ensures PlainNames(Warmed(list, max, all[..i])) && ':' !in all[i].name ==>
              PlainNames(Warmed(list, max, all[..i + 1]))
  {
    assert all[..i + 1][..i] == all[..i];
    WithoutMembers(Warmed(list, max, all[..i]), all[i].name);
  }

  lemma LastNamed(services: seq<Service>, i: nat) returns (last: nat)
    requires i < |services|
    ensures i <= last < |services| && services[last].name == services[i].name && LastOfName(services, last)
    decreases |services| - i
  {
    if j :| i < j < |services| && services[j].name == services[i].name {
      last := LastNamed(services, j);
    } else {
      last := i;
    }
  }

  /** Pinned services ask for their pinned commits, whatever HEAD is. */
  lemma PinnedAsked(projectId: string, services: seq<Service>, commit: string, commits: P.Commits, io: Io)
    requires Pinned(services, commit, commits)
    ensures AllSpecified(projectId, services, commit, commits, io) <==> Parsed(services, io)
    ensures Parsed(services, io) ==>
              Asked(projectId, services, commit, commits, io) == ImagesFor(projectId, services, commit, commits)
  {
    forall i | 0 <= i < |services|
      ensures SpecOf(projectId, services, commit, commits, io, i)
           == if io.parse(services[i].repo).Some? then Some(ImageFor(projectId, services[i], commit, commits)) else None
    {}
  }

  lemma OneMoreAsked(list: seq<Image>, max: nat, all: seq<Image>, i: nat, ok: nat -> bool)
    requires i < |all| && AllServed(list, max, all[..i], ok)
    ensures var before := Warmed(list, max, all[..i]);
            if Served(before, all[i], ok(i)) then
              && Requested(before, max, all[i], ok(i)) == Warmed(list, max, all[..i + 1])
              && AllServed(list, max, all[..i + 1], ok)
            else !AllServed(list, max, all, ok)
  {
    hide Warmed, Served;
    var next := all[..i + 1];
    forall n | 0 <= n < i ensures ServedAt(list, max, next, ok, n) {
      SameInPrefix(list, max, all, i, ok, n);
      SameInPrefix(list, max, all, i + 1, ok, n);
      assert ServedAt(list, max, all[..i], ok, n);
    }
    SameInPrefix(list, max, all, i + 1, ok, i);
    NextWarmed(list, max, all, i, ok);
    assert !ServedAt(list, max, all, ok, i) ==> !AllServed(list, max, all, ok);
  }

  lemma SameInPrefix(list: seq<Image>, max: nat, all: seq<Image>, i: nat, ok: nat -> bool, n: nat)
    requires n < i <= |all|
    ensures ServedAt(list, max, all[..i], ok, n) <==> ServedAt(list, max, all, ok, n)
  {
    assert all[..i][..n] == all[..n] && all[..i][n] == all[n];
  }

  lemma NextWarmed(list: seq<Image>, max: nat, all: seq<Image>, i: nat, ok: nat -> bool)
    requires i < |all|
    ensures var before := Warmed(list, max, all[..i]);
            && (Served(before, all[i], ok(i)) <==> ServedAt(list, max, all, ok, i))
            && (Served(before, all[i], ok(i)) ==>
                Requested(before, max, all[i], ok(i)) == Warmed(list, max, all[..i + 1]))
  {
    var now := all[..i + 1];
    assert now[..i] == all[..i] && now[i] == all[i];
  }

  // ---- One HEAD per repository ----

  /** The repositories in the order they first come up, none twice. */
  function Questions(services: seq<Service>, io: Io): seq<string>
  {
    if services == [] then []
    else
      var init := Questions(services[..|services| - 1], io);
      match io.parse(services[|services| - 1].repo)
      case None => init
      case Some(key) => if key in init then init else init + [key]
  }

  function PlaceOf(keys: seq<string>, key: string): (n: nat)
    ensures n <= |keys| && (n < |keys| ==> keys[n] == key) && (n < |keys| <==> key in keys)
  {
    if keys == [] then 0 else if keys[0] == key then 0 else 1 + PlaceOf(keys[1..], key)
  }

  /** What HEAD was when this repository's question was asked. */
  function HeadOf(questions: seq<string>, repo: string, io: Io): string
  {
    match io.parse(repo)
    case None => ""
    case Some(key) => io.head(key, PlaceOf(questions, key)).GetOr("")
  }

  function HeadsOf(services: seq<Service>, questions: seq<string>, io: Io): seq<string>
  {
    seq(|services|, i requires 0 <= i < |services| => HeadOf(questions, services[i].repo, io))
  }

  /** The commits of a draft: for each service, the answer to its repository's question. */
  function Pins(services: seq<Service>, io: Io): P.Commits
  {
    ByName(services, HeadsOf(services, Questions(services, io), io))
  }

  /** Every repository reference parses, and every repository's one question is answered. */
  ghost predicate Resolvable(services: seq<Service>, io: Io)
  {
    && Parsed(services, io)
    && var q := Questions(services, io); forall n :: 0 <= n < |q| ==> io.head(q[n], n).Some?
  }

  /** The commits of a draft. However HEAD moves meanwhile, each repository is asked once, so
      services that share one get one commit. */
  method ResolveCommits(services: seq<Service>, io: Io) returns (commits: Option<P.Commits>)
    ensures commits == if Resolvable(services, io) then Some(Pins(services, io)) else None
    ensures commits.Some? ==> forall i :: 0 <= i < |services| && LastOfName(services, i) ==>
              services[i].name in commits.value && WasHead(io, services[i].repo, commits.value[services[i].name])
  {
    hide Questions, PlaceOf, ByName, Answered;
    var repoHead: map<string, string> := map[];
    var serviceCommits: P.Commits := map[];
    ghost var all := Questions(services, io);
    ghost var pins := HeadsOf(services, all, io);
    NothingResolved(services, io, pins);
    for i := 0 to |services|
      invariant Parsed(services[..i], io) && Questions(services[..i], io) <= all
      invariant Answered(repoHead, Questions(services[..i], io), all, io)
      invariant serviceCommits == ByName(services[..i], pins[..i])
    {
      ParsedNext(services, i, io);
      QuestionsNext(services, i, io);
      ghost var questions := Questions(services[..i], io);
      var parsed := io.parse(services[i].repo);
      if parsed.None? {
        return None;
      }
      var key := parsed.value;
      OldAnswer(repoHead, questions, all, io, key);
      if key !in repoHead {
        NewQuestion(repoHead, questions, all, io, key);
        var sha := io.head(key, |repoHead|);
        if sha.None? {
          return None;
        }
        NewAnswer(repoHead, questions, all, io, key);
        repoHead := repoHead[key := sha.value];
      }
      ByNameNext(services, pins, i);
      serviceCommits := serviceCommits[services[i].name := repoHead[key]];
    }
    assert services[..|services|] == services && pins[..|services|] == pins;
    AllAnswered(repoHead, all, io);
    PinsWereHeads(services, io);
    return Some(serviceCommits);
  }

  /** Each service is pinned to its own repository's HEAD. */
  lemma PinsWereHeads(services: seq<Service>, io: Io)
    requires Resolvable(services, io)
    ensures forall i :: 0 <= i < |services| && LastOfName(services, i) ==>
              && services[i].name in Pins(services, io)
              && WasHead(io, services[i].repo, Pins(services, io)[services[i].name])
  {
    var q := Questions(services, io);
    QuestionsOnce(services, io);
    forall i | 0 <= i < |services| && LastOfName(services, i)
      ensures services[i].name in Pins(services, io)
      ensures WasHead(io, services[i].repo, Pins(services, io)[services[i].name])
    {
      LastValue(services, HeadsOf(services, q, io), i);
      var key := io.parse(services[i].repo).value;
      var n := PlaceOf(q, key);
      assert q[n] == key && io.head(q[n], n) == Some(Pins(services, io)[services[i].name]);
    }
  }

  /** The heads on record are the answers to the questions so far, which begin the questions. */
  ghost predicate Answered(heads: map<string, string>, asked: seq<string>, all: seq<string>, io: Io)
  {
    && (forall k :: k in heads <==> k in asked) && |heads| == |asked|
    && forall n :: 0 <= n < |asked| ==> AnsweredAt(heads, asked, all, io, n)
  }

  ghost predicate AnsweredAt(heads: map<string, string>, asked: seq<string>, all: seq<string>, io: Io, n: nat)
    requires n < |asked|
  {
    && n < |all| && asked[n] == all[n] && asked[n] in heads && PlaceOf(all, asked[n]) == n
    && io.head(asked[n], n) == Some(heads[asked[n]])
  }

  lemma AllAnswered(heads: map<string, string>, all: seq<string>, io: Io)
    requires Answered(heads, all, all, io)
    ensures forall n :: 0 <= n < |all| ==> io.head(all[n], n).Some?
  {
    forall n | 0 <= n < |all| ensures io.head(all[n], n).Some? { assert AnsweredAt(heads, all, all, io, n); }
  }

  lemma NothingResolved(services: seq<Service>, io: Io, pins: seq<string>)
    requires |services| == |pins|
    ensures Questions(services[..0], io) == [] && Parsed(services[..0], io)
    ensures Answered(map[], [], Questions(services, io), io) && ByName(services[..0], pins[..0]) == map[]
  {
  }

  lemma ParsedNext(services: seq<Service>, i: nat, io: Io)
    requires i < |services|
    ensures Parsed(services[..i + 1], io) <==> Parsed(services[..i], io) && io.parse(services[i].repo).Some?
    ensures Parsed(services, io) ==> io.parse(services[i].repo).Some?
  {
    var next := services[..i + 1];
    assert next[i] == services[i] && forall k :: 0 <= k < i ==> next[k] == services[..i][k];
  }

  lemma QuestionsNext(services: seq<Service>, i: nat, io: Io)
    requires i < |services|
    ensures Questions(services[..i + 1], io) <= Questions(services, io)
    ensures var q, key := Questions(services[..i], io), io.parse(services[i].repo);
            Questions(services[..i + 1], io) == if key.None? || key.value in q then q else q + [key.value]
    decreases |services| - i
  {
    assert services[..i + 1][..i] == services[..i];
    if i + 1 < |services| {
      QuestionsNext(services, i + 1, io);
    } else {
      assert services[..i + 1] == services;
    }
  }

  lemma {:induction false} PlaceOfFirst(keys: seq<string>, n: nat)
    requires n < |keys| && forall k :: 0 <= k < n ==> keys[k] != keys[n]
    ensures PlaceOf(keys, keys[n]) == n
  {
    if n > 0 {
      PlaceOfFirst(keys[1..], n - 1);
    }
  }

  lemma OldAnswer(heads: map<string, string>, asked: seq<string>, all: seq<string>, io: Io, key: string)
    requires Answered(heads, asked, all, io)
    ensures key in heads <==> key in asked
    ensures key in asked ==> key in heads && io.head(key, PlaceOf(all, key)) == Some(heads[key])
  {
    hide PlaceOf;
    if key in asked {
      var n :| 0 <= n < |asked| && asked[n] == key;
      assert AnsweredAt(heads, asked, all, io, n);
    }
  }

  /** A new question is the next one. */
  lemma NewQuestion(heads: map<string, string>, asked: seq<string>, all: seq<string>, io: Io, key: string)
    requires Answered(heads, asked, all, io) && key !in asked && asked + [key] <= all
    ensures PlaceOf(all, key) == |heads| == |asked| < |all| && all[|heads|] == key
  {
    hide PlaceOf;
    var n := |asked|;
    assert (asked + [key])[n] == key == all[n];
    forall k | 0 <= k < n ensures all[k] != key { assert (asked + [key])[k] == asked[k] && asked[k] in asked; }
    PlaceOfFirst(all, n);
  }

  /** And its answer is what counts from then on. */
  lemma NewAnswer(heads: map<string, string>, asked: seq<string>, all: seq<string>, io: Io, key: string)
    requires Answered(heads, asked, all, io) && key !in asked && asked + [key] <= all
    requires io.head(key, |heads|).Some?
    ensures Answered(heads[key := io.head(key, |heads|).value], asked + [key], all, io)
  {
    NewQuestion(heads, asked, all, io, key);
    hide PlaceOf;
    var next, now := heads[key := io.head(key, |heads|).value], asked + [key];
    assert |next| == |heads| + 1 by { assert next.Keys == heads.Keys + {key}; }
    forall n | 0 <= n < |now| ensures AnsweredAt(next, now, all, io, n) {
      if n < |asked| {
        assert AnsweredAt(heads, asked, all, io, n) && now[n] == asked[n] && asked[n] in asked;
      }
    }
  }

  /** No repository is asked twice, and all are asked. */
  lemma {:induction false} QuestionsOnce(services: seq<Service>, io: Io)
    requires Parsed(services, io)
    ensures var q := Questions(services, io);
            && (forall i, j :: 0 <= i < j < |q| ==> q[i] != q[j])
            && (forall i :: 0 <= i < |services| ==> io.parse(services[i].repo).value in q)
            && forall k :: k in q ==> exists i :: 0 <= i < |services| && io.parse(services[i].repo) == Some(k)
  {
    if services != [] {
      var init := services[..|services| - 1];
      assert forall i :: 0 <= i < |init| ==> init[i] == services[i];
      QuestionsOnce(init, io);
    }
  }

  /** A draft's pins are full commits, one per repository: no two services of one repository,
      each the last of its name, are pinned apart. */
  lemma PinsAreOnePerRepo(services: seq<Service>, io: Io)
    requires Shas(io) && Resolvable(services, io)
    ensures Covers(services, Pins(services, io))
    ensures forall i, j ::
              (&& 0 <= i < |services| && 0 <= j < |services| && LastOfName(services, i) && LastOfName(services, j)
               && io.parse(services[i].repo) == io.parse(services[j].repo)) ==>
              Pins(services, io)[services[i].name] == Pins(services, io)[services[j].name]
  {
    var q := Questions(services, io);
    var heads := HeadsOf(services, q, io);
    forall i | 0 <= i < |services| && LastOfName(services, i)
      ensures services[i].name in Pins(services, io) && Pins(services, io)[services[i].name] == heads[i]
    {
      LastValue(services, heads, i);
    }
    QuestionsOnce(services, io);
    forall i | 0 <= i < |services|
      ensures services[i].name in Pins(services, io) && IsSha(Pins(services, io)[services[i].name])
    {
      var last := LastNamed(services, i);
      var key := io.parse(services[last].repo).value;
      assert q[PlaceOf(q, key)] == key;
    }
  }

  /** A publish build: it works exactly when there are services, they resolve, and every image
      is served at its pin; then its commits are the pins. built are the tags it makes. */
  method BuildProject(builder: Builder, projectId: string, m: Manifest, io: Io)
    returns (commits: Option<P.Commits>, ghost built: map<string, string>, ghost files: map<string, string>)
    requires builder.Valid() && builder.tick + |m.services| <= MAX_TICK && Shas(io)
    modifies builder
    ensures builder.Valid()
    ensures var pins, list := Pins(m.services, io), old(builder.recent);
            var images := ImagesFor(projectId, m.services, "", pins);
            && commits ==
                 (if m.services != [] && Resolvable(m.services, io) && AllServed(list, builder.max, images, Builds(io))
                           then Some(pins) else None)
            && (commits.Some? ==>
                  && builder.recent == Warmed(list, builder.max, images) && built == ByName(m.services, TagsOf(images))
                  && var asDeclared := DockerfilesOf(m.services);
                     && builder.made == MadeWith(old(builder.made), list, builder.max, images, asDeclared)
                     && files == ByName(
                          m.services, FilesServed(old(builder.made), list, builder.max, images, asDeclared)))
  {
    hide AllServed, Warmed, Represents, Shas, ImagesFor, Pins, MadeWith, FilesServed, ByName, Backed;
    built, files := map[], map[];
    if |m.services| == 0 {
      return None, built, files;
    }
    var resolved := ResolveCommits(m.services, io);
    if resolved.None? {
      return None, built, files;
    }
    ghost var pins := Pins(m.services, io);
    PinsAreOnePerRepo(m.services, io);
    PinnedAsked(projectId, m.services, "", pins, io);
    var images;
    images, files := BuildServices(builder, projectId, m.services, "", resolved.value, io);
    if images.None? {
      return None, built, files;
    }
    return resolved, images.value, files;
  }

  /** Every service has a full commit. */
  ghost predicate Covers(services: seq<Service>, commits: P.Commits)
  {
    forall i :: 0 <= i < |services| ==> services[i].name in commits && IsSha(commits[services[i].name])
  }

  // ---- The play path ----

  /** What the play source hands the Runner for a stored Project. */
  datatype Stored = Stored(manifest: Manifest, commit: string, commits: P.Commits)

  function PlaySource(rows: P.Rows, id: string): Option<Stored>
  {
    match P.Playable(rows, id)
    case None => None
    case Some(row) =>
      Some(Stored(row.manifest, row.commit.GetOr(""), row.serviceCommits.GetOr(map[])))
  }

  /** Once a publish is recorded, playing the Project under its canonical id asks for exactly
      the images the publish built; under another spelling of the id it asks for others. */
  lemma PlayAsksForWhatWasBuilt(rows: P.Rows, owner: int, id: string, m: Manifest, headline: string, commits: P.Commits,
                                playId: string)
    requires P.Owns(rows, owner, id) && id == P.Key(id) && rows[id].manifest == m
    requires m.services != [] && Covers(m.services, commits)
    requires P.IsUuid(playId) && P.Key(playId) == id
    ensures var s := PlaySource(P.Step(rows, P.Publish(owner, id, headline, Some(commits))), playId);
            && s.Some? && s.value.manifest == m && Pinned(m.services, s.value.commit, s.value.commits)
            && (playId == id <==>
                  ImagesFor(playId, m.services, s.value.commit, s.value.commits)
                  == ImagesFor(id, m.services, "", commits))
  {
    var s := PlaySource(P.Step(rows, P.Publish(owner, id, headline, Some(commits))), playId).value;
    forall i | 0 <= i < |m.services|
      ensures CommitFor(m.services[i], s.commit, s.commits) == CommitFor(m.services[i], "", commits) != ""
    {}
    var n := m.services[0].name;
    if ImagesFor(playId, m.services, s.commit, s.commits) == ImagesFor(id, m.services, "", commits) {
      assert ImagesFor(playId, m.services, s.commit, s.commits)[0] == ImagesFor(id, m.services, "", commits)[0];
      assert ImageName(playId, n) == ImageName(id, n);
      assert |"showcase/"| == 9 && ImageName(playId, n)[9..9 + |playId|] == playId
             && ImageName(id, n)[9..9 + |id|] == id;
    }
    assert playId == id ==>
      ImagesFor(playId, m.services, s.commit, s.commits) == ImagesFor(id, m.services, "", commits);
  }

  /** From the publish to the play: once a build's commits are recorded, a play of the Project
      under its canonical id, whatever else was built in between and wherever HEAD is by then,
      returns for each service the very tag that the publish built. */
  lemma PlayReturnsWhatWasPublished(rows: P.Rows, owner: int, id: string, m: Manifest, headline: string, io: Io,
                                    playIo: Io)
    requires P.Owns(rows, owner, id) && id == P.Key(id) && rows[id].manifest == m
    requires m.services != [] && Shas(io) && Resolvable(m.services, io)
    ensures var pins := Pins(m.services, io);
            var s := PlaySource(P.Step(rows, P.Publish(owner, id, headline, Some(pins))), id);
            && s.Some? && s.value.manifest == m
            && (AllSpecified(id, m.services, s.value.commit, s.value.commits, playIo) <==> Parsed(m.services, playIo))
            && (Parsed(m.services, playIo) ==>
                  var played := Asked(id, m.services, s.value.commit, s.value.commits, playIo);
                  ByName(m.services, TagsOf(played)) == ByName(m.services, TagsOf(ImagesFor(id, m.services, "", pins))))
  {
    hide P.Step, ByName, ImagesFor, Asked, AllSpecified, Pinned, Covers, Pins;
    var pins := Pins(m.services, io);
    PinsAreOnePerRepo(m.services, io);
    PlayAsksForWhatWasBuilt(rows, owner, id, m, headline, pins, id);
    var s := PlaySource(P.Step(rows, P.Publish(owner, id, headline, Some(pins))), id).value;
    PinnedAsked(id, m.services, s.commit, s.commits, playIo);
  }

  // ---- A play right after its publish builds nothing ----

  /** The last asked-for images head the list, newest first. */
  lemma {:induction false} WarmedHead(list: seq<Image>, max: nat, images: seq<Image>)
    requires DistinctImages(images) && |images| <= max
    ensures HeadedBy(Warmed(list, max, images), images)
  {
    if images != [] {
      var init, last := images[..|images| - 1], images[|images| - 1];
      WarmedHead(list, max, init);
      assert images == init + [last];
      OneMoreAtTheHead(Warmed(list, max, init), max, init, last);
    }
  }

  ghost predicate HeadedBy(list: seq<Image>, images: seq<Image>)
  {
    |list| >= |images| && forall i :: 0 <= i < |images| ==> list[i] == images[|images| - 1 - i]
  }

  lemma OneMoreAtTheHead(list: seq<Image>, max: nat, images: seq<Image>, image: Image)
    requires HeadedBy(list, images) && |images| < max
    requires forall i :: 0 <= i < |images| ==> images[i].name != image.name
    ensures HeadedBy(Cut(ToFront(list, image), max), images + [image])
  {
    var head, tail := list[..|images|], list[|images|..];
    assert list == head + tail;
    forall x | x in head ensures x.name != image.name {
      var k :| 0 <= k < |head| && head[k] == x;
      assert x == images[|images| - 1 - k];
    }
    WithoutAppend(head, tail, image.name);
    WithoutAbsent(head, image.name);
    var next := Cut(ToFront(list, image), max);
    assert ToFront(list, image) == [image] + (head + Without(tail, image.name));
    forall i | 0 <= i <= |images| ensures next[i] == (images + [image])[|images| - i] {
      if i > 0 {
        assert next[i] == head[i - 1];
      }
    }
  }

  /** Asking for images that are all there keeps them all there. */
  lemma {:induction false} HitsKeepAll(list: seq<Image>, max: nat, images: seq<Image>, x: Image)
    requires DistinctImages(list) && |list| <= max && x in list
    requires forall i :: i in images ==> i in list
    ensures x in Warmed(list, max, images)
    ensures DistinctImages(Warmed(list, max, images)) && |Warmed(list, max, images)| <= max
    ensures forall i :: i in Warmed(list, max, images) <==> i in list
  {
    if images != [] {
      var init, last := images[..|images| - 1], images[|images| - 1];
      assert images == init + [last];
      HitsKeepAll(list, max, init, x);
      var before := Warmed(list, max, init);
      HitKeepsAll(before, max, last);
      hide ToFront, Cut, DistinctImages;
    }
  }

  lemma HitKeepsAll(list: seq<Image>, max: nat, image: Image)
    requires DistinctImages(list) && |list| <= max && image in list
    ensures var next := Cut(ToFront(list, image), max);
            DistinctImages(next) && |next| <= max && forall i :: i in next <==> i in list
  {
    HitFits(list, max, image, false);
    MovedNames(list, image, false);
    WithoutMembers(list, image.name);
    forall i | i in list && i != image ensures i.name != image.name {
      var k :| 0 <= k < |list| && list[k] == i;
      var l :| 0 <= l < |list| && list[l] == image;
    }
  }

  /** If the Project's services fit the cache, a play right after its publish is served
      entirely from the cache: it succeeds even where no build would. */
  lemma PlayAfterPublishBuildsNothing(list: seq<Image>, max: nat, images: seq<Image>)
    requires DistinctImages(images) && 1 <= |images| <= max && |list| <= max && DistinctImages(list)
    ensures AllServed(Warmed(list, max, images), max, images, _ => false)
  {
    forall n | 0 <= n < |images| ensures images[n] in Warmed(Warmed(list, max, images), max, images[..n]) {
      StillWarm(list, max, images, n);
    }
  }

  lemma StillWarm(list: seq<Image>, max: nat, images: seq<Image>, n: nat)
    requires DistinctImages(images) && n < |images| <= max && |list| <= max && DistinctImages(list)
    ensures images[n] in Warmed(Warmed(list, max, images), max, images[..n])
  {
    var warm := Warmed(list, max, images);
    WarmedHead(list, max, images);
    WarmedOk(list, max, images);
    assert warm[|images| - 1 - n] == images[n];
    forall i | i in images[..n] ensures i in warm {
      var k :| 0 <= k < n && images[k] == i;
      assert warm[|images| - 1 - k] == images[k];
    }
    HitsKeepAll(warm, max, images[..n], images[n]);
  }

  lemma {:induction false} WarmedOk(list: seq<Image>, max: nat, images: seq<Image>)
    requires |list| <= max && DistinctImages(list)
    ensures |Warmed(list, max, images)| <= max && DistinctImages(Warmed(list, max, images))
  {
    if images != [] {
      WarmedOk(list, max, images[..|images| - 1]);
      MovedNames(Warmed(list, max, images[..|images| - 1]), images[|images| - 1], false);
    }
  }
}
