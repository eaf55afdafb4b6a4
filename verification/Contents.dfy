/** What the images of a publish or a play were built from (cmd/controlplane/main.go:374-410,
    internal/builder/builder.go:114-144): a service's Dockerfile says what is built, but the
    cache goes by name and commit alone. */
module Contents {
  import opened Text
  import opened Manifest
  import opened ImageCache
  import opened Publish
  import P = Projects

  /** The n-th image is there when it is asked for. */
  ghost predicate Hit(list: seq<Image>, max: nat, images: seq<Image>, n: nat)
    requires n < |images|
  {
    images[n] in Warmed(list, max, images[..n])
  }

  /** Asking for other names does not touch this one. */
  lemma {:induction false} MadeUntouched(made: map<string, string>, list: seq<Image>, max: nat, images: seq<Image>,
                                         files: seq<string>, name: string)
    requires |files| == |images| && forall i :: i in images ==> i.name != name
    ensures FileOf(MadeWith(made, list, max, images, files), name) == FileOf(made, name)
  {
    if images != [] {
      var n := |images| - 1;
      assert images[n] in images && forall i :: i in images[..n] ==> i in images;
      MadeUntouched(made, list, max, images[..n], files[..n], name);
    }
  }

  /** An image is served with the Dockerfile it was built with before, or else with its own. */
  lemma FileIs(made: map<string, string>, list: seq<Image>, max: nat, images: seq<Image>, files: seq<string>, n: nat)
    requires DistinctImages(images) && n < |images| == |files|
    ensures FilesServed(made, list, max, images, files)[n]
         == if Hit(list, max, images, n) then FileOf(made, images[n].name) else files[n]
  {
    assert images[..n + 1][..n] == images[..n] && files[..n + 1][..n] == files[..n];
    forall i | i in images[..n] ensures i.name != images[n].name {
      var k :| 0 <= k < n && images[k] == i;
    }
    MadeUntouched(made, list, max, images[..n], files[..n], images[n].name);
  }

  lemma ByNameIsInjective(services: seq<Service>, a: seq<string>, b: seq<string>)
    requires |a| == |b| == |services| && DistinctNames(services) && ByName(services, a) == ByName(services, b)
    ensures a == b
  {
    forall i | 0 <= i < |services| ensures a[i] == b[i] {
      assert LastOfName(services, i);
      LastValue(services, a, i);
      LastValue(services, b, i);
    }
  }

  /** The images of a publish, or of a play, are those the manifest declares exactly when every
      one that was there already had been built with the Dockerfile declared now. */
  lemma AsDeclaredIff(made: map<string, string>, list: seq<Image>, max: nat, images: seq<Image>, m: Manifest)
    requires DistinctNames(m.services) && DistinctImages(images) && |images| == |m.services|
    ensures ByName(m.services, FilesServed(made, list, max, images, DockerfilesOf(m.services))) == Dockerfiles(m) <==>
              forall n :: 0 <= n < |images| && Hit(list, max, images, n) ==>
                FileOf(made, images[n].name) == m.services[n].dockerfile
  {
    var declared := DockerfilesOf(m.services);
    var served := FilesServed(made, list, max, images, declared);
    forall n | 0 <= n < |images|
      ensures served[n] == if Hit(list, max, images, n) then FileOf(made, images[n].name) else declared[n]
    {
      FileIs(made, list, max, images, declared, n);
    }
    hide FilesServed, Hit;
    if ByName(m.services, served) == ByName(m.services, declared) {
      ByNameIsInjective(m.services, served, declared);
    }
    if forall n :: 0 <= n < |images| ==> served[n] == declared[n] {
      assert served == declared;
    }
  }

  lemma {:induction false} HitsMakeNothing(made: map<string, string>, list: seq<Image>, max: nat, images: seq<Image>,
                                           files: seq<string>)
    requires |files| == |images| && forall n :: 0 <= n < |images| ==> Hit(list, max, images, n)
    ensures MadeWith(made, list, max, images, files) == made
  {
    if images != [] {
      var n := |images| - 1;
      forall k | 0 <= k < n ensures Hit(list, max, images[..n], k) {
        assert Hit(list, max, images, k) && images[..n][..k] == images[..k] && images[..n][k] == images[k];
      }
      HitsMakeNothing(made, list, max, images[..n], files[..n]);
      assert Hit(list, max, images, n);
    }
  }

  /** What stands in the cache is served again as it is: right after a build of images that fit,
      asking for them again, with whatever Dockerfiles, builds none and yields the same. */
  lemma ServedAgain(made: map<string, string>, list: seq<Image>, max: nat, images: seq<Image>, files: seq<string>,
                    later: seq<string>)
    requires DistinctImages(images) && |files| == |images| == |later| && 1 <= |images| <= max
    requires |list| <= max && DistinctImages(list)
    ensures var warm, now := Warmed(list, max, images), MadeWith(made, list, max, images, files);
            && AllServed(warm, max, images, _ => false) && MadeWith(now, warm, max, images, later) == now
            && FilesServed(now, warm, max, images, later) == FilesServed(made, list, max, images, files)
  {
    var warm, now := Warmed(list, max, images), MadeWith(made, list, max, images, files);
    PlayAfterPublishBuildsNothing(list, max, images);
    forall n | 0 <= n < |images| ensures Hit(warm, max, images, n) { StillWarm(list, max, images, n); }
    HitsMakeNothing(now, warm, max, images, later);
    forall n | 0 <= n < |images|
      ensures FilesServed(now, warm, max, images, later)[n] == FilesServed(made, list, max, images, files)[n]
    {
      FileIs(now, warm, max, images, later, n);
      MadeStays(made, list, max, images, files, n);
    }
    hide FilesServed;
  }

  /** Later asks for other names leave an image's Dockerfile. */
  lemma {:induction false} MadeStays(made: map<string, string>, list: seq<Image>, max: nat, images: seq<Image>,
                                     files: seq<string>, n: nat)
    requires DistinctImages(images) && n < |images| == |files|
    ensures FileOf(MadeWith(made, list, max, images[..n + 1], files[..n + 1]), images[n].name)
         == FileOf(MadeWith(made, list, max, images, files), images[n].name)
  {
    var last := |images| - 1;
    if n < last {
      LastMakesItsOwn(made, list, max, images, files, images[n].name);
      var init, front := images[..last], files[..last];
      assert init[..n + 1] == images[..n + 1] && front[..n + 1] == files[..n + 1] && init[n] == images[n];
      hide MadeWith;
      MadeStays(made, list, max, init, front, n);
    } else {
      assert images[..n + 1] == images && files[..n + 1] == files;
    }
  }

  lemma LastMakesItsOwn(made: map<string, string>, list: seq<Image>, max: nat, images: seq<Image>, files: seq<string>,
                        name: string)
    requires images != [] && |images| == |files| && images[|images| - 1].name != name
    ensures FileOf(MadeWith(made, list, max, images, files), name)
         == FileOf(MadeWith(made, list, max, images[..|images| - 1], files[..|images| - 1]), name)
  {
  }

  // ---- An edit of a Dockerfile alone ----

  /** The same services, but for the Dockerfiles. */
  ghost predicate SameButDockerfiles(a: seq<Service>, b: seq<Service>)
  {
    |a| == |b| && forall i :: 0 <= i < |a| ==> b[i] == a[i].(dockerfile := b[i].dockerfile)
  }

  lemma SameNames(a: seq<Service>, b: seq<Service>)
    requires SameButDockerfiles(a, b)
    ensures DistinctNames(a) <==> DistinctNames(b)
    ensures forall values :: |values| == |a| ==> ByName(a, values) == ByName(b, values)
  {
    assert forall i :: 0 <= i < |a| ==> a[i].name == b[i].name;
    forall values: seq<string> | |values| == |a| ensures ByName(a, values) == ByName(b, values) {
      ByNameGoesByName(a, b, values);
    }
  }

  lemma {:induction false} ByNameGoesByName(a: seq<Service>, b: seq<Service>, values: seq<string>)
    requires |a| == |b| == |values| && forall i :: 0 <= i < |a| ==> a[i].name == b[i].name
    ensures ByName(a, values) == ByName(b, values)
  {
    if a != [] {
      var n := |a| - 1;
      ByNameGoesByName(a[..n], b[..n], values[..n]);
    }
  }

  lemma ImagesAreApart(projectId: string, services: seq<Service>, commit: string, commits: P.Commits)
    requires DistinctNames(services)
    ensures DistinctImages(ImagesFor(projectId, services, commit, commits))
  {
    forall i, j | 0 <= i < j < |services|
      ensures ImageName(projectId, services[i].name) != ImageName(projectId, services[j].name)
    {
      var n := |"showcase/" + projectId + "-"|;
      assert ImageName(projectId, services[i].name)[n..] == services[i].name;
      assert ImageName(projectId, services[j].name)[n..] == services[j].name;
    }
  }

  /** By service, the Dockerfile behind each image of a publish at these pins. */
  function PublishedFiles(made: map<string, string>, list: seq<Image>, max: nat, projectId: string, m: Manifest,
                          commits: P.Commits): map<string, string>
  {
    ByName(m.services, FilesServed(
      made, list, max, ImagesFor(projectId, m.services, "", commits), DockerfilesOf(m.services)))
  }

  lemma PublishedAsDeclaredIff(made: map<string, string>, list: seq<Image>, max: nat, projectId: string, m: Manifest,
                               commits: P.Commits)
    requires DistinctNames(m.services)
    ensures var images := ImagesFor(projectId, m.services, "", commits);
            PublishedFiles(made, list, max, projectId, m, commits) == Dockerfiles(m) <==>
              forall n :: 0 <= n < |images| && Hit(list, max, images, n) ==>
                FileOf(made, images[n].name) == m.services[n].dockerfile
  {
    ImagesAreApart(projectId, m.services, "", commits);
    AsDeclaredIff(made, list, max, ImagesFor(projectId, m.services, "", commits), m);
  }

  /** Publish, edit only Dockerfiles, publish again with no repository moved: nothing is built,
      and the images published under the edited manifest are those of the Dockerfiles before. */
  lemma RepublishServesOldImages(made: map<string, string>, list: seq<Image>, max: nat, projectId: string,
                                 before: Manifest, after: Manifest, commits: P.Commits)
    requires DistinctNames(before.services) && SameButDockerfiles(before.services, after.services)
    requires 1 <= |before.services| <= max && |list| <= max && DistinctImages(list)
    ensures var images := ImagesFor(projectId, before.services, "", commits);
            var warm := Warmed(list, max, images);
            var now := MadeWith(made, list, max, images, DockerfilesOf(before.services));
            && ImagesFor(projectId, after.services, "", commits) == images
            && AllServed(warm, max, images, _ => false)
            && PublishedFiles(now, warm, max, projectId, after, commits)
               == PublishedFiles(made, list, max, projectId, before, commits)
  {
    SameNames(before.services, after.services);
    var images := ImagesFor(projectId, before.services, "", commits);
    assert ImagesFor(projectId, after.services, "", commits) == images;
    ImagesAreApart(projectId, before.services, "", commits);
    ServedAgain(made, list, max, images, DockerfilesOf(before.services), DockerfilesOf(after.services));
  }
}
