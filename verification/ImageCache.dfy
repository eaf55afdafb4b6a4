/** The image cache (internal/builder/builder.go): a map of entries stamped by a counter,
    with docker's image store beside it. It is a move-to-front list cut to the cap, and it
    answers what building every time would answer, as long as no Dockerfile is edited. */
module ImageCache {
  import opened Text

  datatype Entry = Entry(version: string, tag: string, used: nat)

  type Cache = map<string, Entry>

  const MAX_TICK := 0xFFFF_FFFF_FFFF_FFFF

  /** At most 12 characters. */
  function ShortVersion(v: string): string { if |v| > 12 then v[..12] else v }

  function TagOf(name: string, version: string): string { name + ":" + ShortVersion(version) }

  // ---- What the cache stands for ----

  /** One image, by name and source version. */
  datatype Image = Image(name: string, version: string)

  function NamesOf(list: seq<Image>): set<string> { set i | i in list :: i.name }

  ghost predicate DistinctImages(list: seq<Image>)
  {
    forall i, j :: 0 <= i < j < |list| ==> list[i].name != list[j].name
  }

  function Without(list: seq<Image>, name: string): seq<Image>
  {
    if list == [] then []
    else if list[0].name == name then Without(list[1..], name)
    else [list[0]] + Without(list[1..], name)
  }

  function Cut(list: seq<Image>, max: nat): seq<Image> { if |list| <= max then list else list[..max] }

  function ToFront(list: seq<Image>, image: Image): seq<Image> { [image] + Without(list, image.name) }

  /** A request is served from the list or by a build; a served image moves to the front. */
  predicate Served(list: seq<Image>, image: Image, builds: bool) { image in list || builds }

  function Requested(list: seq<Image>, max: nat, image: Image, builds: bool): seq<Image>
  {
    if Served(list, image, builds) then Cut(ToFront(list, image), max) else list
  }

  /** The same when the counter wraps: the served image moves to the end instead. */
  function Wrapped(list: seq<Image>, max: nat, image: Image, builds: bool): seq<Image>
  {
    if Served(list, image, builds) then Cut(ToBack(list, image), max) else list
  }

  function ToBack(list: seq<Image>, image: Image): seq<Image> { Without(list, image.name) + [image] }

  /** Where a served image goes. */
  function Moved(list: seq<Image>, image: Image, wraps: bool): seq<Image>
  {
    if wraps then ToBack(list, image) else ToFront(list, image)
  }

  lemma {:induction false} WithoutMembers(list: seq<Image>, name: string)
    ensures forall i :: i in Without(list, name) <==> i in list && i.name != name
    ensures |Without(list, name)| <= |list|
  {
    if list != [] {
      WithoutMembers(list[1..], name);
      assert list == [list[0]] + list[1..];
    }
  }

  lemma {:induction false} WithoutDistinct(list: seq<Image>, name: string)
    requires DistinctImages(list)
    ensures DistinctImages(Without(list, name))
  {
    if list != [] {
      var tail := list[1..];
      WithoutMembers(tail, name);
      WithoutDistinct(tail, name);
      var r := Without(tail, name);
      forall k | 0 <= k < |r| ensures r[k].name != list[0].name {
        assert r[k] in tail;
        var l :| 0 <= l < |tail| && tail[l] == r[k];
        assert list[l + 1] == r[k];
      }
    }
  }

  lemma WithoutAbsent(list: seq<Image>, name: string)
    requires forall i :: i in list ==> i.name != name
    ensures Without(list, name) == list
  {
    if list != [] {
      WithoutAbsent(list[1..], name);
    }
  }

  lemma {:induction false} WithoutAppend(a: seq<Image>, b: seq<Image>, name: string)
    ensures Without(a + b, name) == Without(a, name) + Without(b, name)
  {
    if a == [] {
      assert a + b == b;
    } else {
      assert (a + b)[1..] == a[1..] + b;
      WithoutAppend(a[1..], b, name);
    }
  }

  // ---- The map against the list ----

  ghost predicate Entered(cache: Cache, i: Image, tick: nat)
  {
    && i.name in cache && cache[i.name].version == i.version
    && cache[i.name].tag == TagOf(i.name, i.version) && cache[i.name].used <= tick
  }

  ghost predicate Descending(cache: Cache, list: seq<Image>)
    requires forall i :: i in list ==> i.name in cache
  {
    forall i, j :: 0 <= i < j < |list| ==> cache[list[i].name].used > cache[list[j].name].used
  }

  /** The list names the cache's entries, most recently used first. */
  ghost predicate Represents(cache: Cache, list: seq<Image>, tick: nat)
  {
    && cache.Keys == NamesOf(list) && DistinctImages(list)
    && (forall i :: i in list ==> Entered(cache, i, tick))
    && Descending(cache, list)
  }

  /** Before the counter ever wraps, no stamp is 0. */
  ghost predicate Positive(cache: Cache) { forall k :: k in cache ==> cache[k].used > 0 }

  lemma NamesNext(init: seq<Image>, last: Image)
    ensures NamesOf(init + [last]) == NamesOf(init) + {last.name}
  {
    assert forall i :: i in init + [last] <==> i in init || i == last;
    forall n | n in NamesOf(init) + {last.name} ensures n in NamesOf(init + [last]) {
      if n == last.name {
        assert last in init + [last];
      } else {
        var x :| x in init && x.name == n;
        assert x in init + [last];
      }
    }
  }

  lemma {:induction false} SameSize(list: seq<Image>)
    requires DistinctImages(list)
    ensures |NamesOf(list)| == |list|
  {
    if list != [] {
      var init, last := list[..|list| - 1], list[|list| - 1];
      assert list == init + [last];
      assert last.name !in NamesOf(init) && DistinctImages(init);
      NamesNext(init, last);
      hide NamesOf, DistinctImages;
      SameSize(init);
    }
  }

  /** The cache hits exactly when the list holds the image. */
  lemma HitIff(cache: Cache, list: seq<Image>, tick: nat, image: Image)
    requires Represents(cache, list, tick)
    ensures image.name in cache && cache[image.name].version == image.version <==> image in list
  {
    if image.name in cache {
      var i :| i in list && i.name == image.name;
    }
  }

  lemma MovedNames(list: seq<Image>, image: Image, wraps: bool)
    ensures NamesOf(Moved(list, image, wraps)) == NamesOf(list) + {image.name}
    ensures DistinctImages(list) ==> DistinctImages(Moved(list, image, wraps))
    ensures forall i :: i in Moved(list, image, wraps) <==> i == image || i in Without(list, image.name)
    ensures |Moved(list, image, wraps)| == |Without(list, image.name)| + 1
  {
    var rest, moved := Without(list, image.name), Moved(list, image, wraps);
    WithoutMembers(list, image.name);
    if DistinctImages(list) {
      WithoutDistinct(list, image.name);
      OneMoreName(rest, image, wraps);
    }
    hide Without, DistinctImages;
    assert forall i :: i in moved <==> i == image || i in rest;
    forall n | n in NamesOf(list) + {image.name} ensures n in NamesOf(moved) {
      if n != image.name {
        var x :| x in list && x.name == n;
        assert x in rest && x in moved;
      }
    }
  }

  lemma OneMoreName(rest: seq<Image>, image: Image, back: bool)
    requires DistinctImages(rest) && forall i :: i in rest ==> i.name != image.name
    ensures DistinctImages(if back then rest + [image] else [image] + rest)
  {
    forall k | 0 <= k < |rest| ensures rest[k].name != image.name {
      assert rest[k] in rest;
    }
  }

  /** The cache with one name stamped anew. */
  function Stamped(cache: Cache, image: Image, used: nat): Cache
  {
    cache[image.name := Entry(image.version, TagOf(image.name, image.version), used)]
  }

  lemma FrontEntered(cache: Cache, list: seq<Image>, tick: nat, image: Image, i: Image)
    requires (forall x :: x in list ==> Entered(cache, x, tick)) && i in ToFront(list, image)
    ensures Entered(Stamped(cache, image, tick + 1), i, tick + 1)
  {
    WithoutMembers(list, image.name);
    if i != image {
      assert i in Without(list, image.name);
    }
  }

  lemma FrontDescends(cache: Cache, rest: seq<Image>, tick: nat, image: Image)
    requires forall i :: i in rest ==> i.name in cache && Entered(cache, i, tick) && i.name != image.name
    requires Descending(cache, rest)
    ensures forall i :: i in [image] + rest ==> i.name in Stamped(cache, image, tick + 1)
    ensures Descending(Stamped(cache, image, tick + 1), [image] + rest)
  {
    var front, next := [image] + rest, Stamped(cache, image, tick + 1);
    forall i, j | 0 <= i < j < |front| ensures next[front[i].name].used > next[front[j].name].used {
      assert front[j] == rest[j - 1] && rest[j - 1] in rest;
      if i > 0 {
        assert front[i] == rest[i - 1] && rest[i - 1] in rest;
      }
    }
  }

  /** A stamp above all others puts its entry in front. */
  lemma StampFront(cache: Cache, list: seq<Image>, tick: nat, image: Image)
    requires Represents(cache, list, tick)
    ensures Represents(Stamped(cache, image, tick + 1), ToFront(list, image), tick + 1)
  {
    var rest := Without(list, image.name);
    WithoutMembers(list, image.name);
    MovedNames(list, image, false);
    OrderOfWithout(cache, list, image.name);
    FrontDescends(cache, rest, tick, image);
    forall i | i in ToFront(list, image) ensures Entered(Stamped(cache, image, tick + 1), i, tick + 1) {
      FrontEntered(cache, list, tick, image, i);
    }
  }

  lemma BackEntered(cache: Cache, list: seq<Image>, tick: nat, image: Image, i: Image)
    requires (forall x :: x in list ==> Entered(cache, x, tick)) && i in ToBack(list, image)
    ensures Entered(Stamped(cache, image, 0), i, tick)
  {
    WithoutMembers(list, image.name);
    if i != image {
      assert i in Without(list, image.name);
    }
  }

  /** A stamp below all others puts its entry last. */
  lemma StampBack(cache: Cache, list: seq<Image>, tick: nat, image: Image)
    requires Represents(cache, list, tick) && Positive(cache)
    ensures Represents(Stamped(cache, image, 0), ToBack(list, image), tick)
  {
    var rest := Without(list, image.name);
    WithoutMembers(list, image.name);
    MovedNames(list, image, true);
    OrderOfWithout(cache, list, image.name);
    BackDescends(cache, rest, image);
    forall i | i in ToBack(list, image) ensures Entered(Stamped(cache, image, 0), i, tick) {
      BackEntered(cache, list, tick, image, i);
    }
  }

  lemma BackDescends(cache: Cache, rest: seq<Image>, image: Image)
    requires Positive(cache) && forall i :: i in rest ==> i.name in cache && i.name != image.name
    requires Descending(cache, rest)
    ensures forall i :: i in rest + [image] ==> i.name in Stamped(cache, image, 0)
    ensures Descending(Stamped(cache, image, 0), rest + [image])
  {
    var back, next := rest + [image], Stamped(cache, image, 0);
    forall i, j | 0 <= i < j < |back| ensures next[back[i].name].used > next[back[j].name].used {
      assert back[i] == rest[i] && rest[i] in rest;
      if j < |rest| {
        assert back[j] == rest[j] && rest[j] in rest;
      }
    }
  }

  /** The 64-bit counter's next value. */
  function NextTick(tick: nat): nat { (tick + 1) % (MAX_TICK + 1) }

  /** What bounds the stamps after a stamp: when the counter wraps, only its greatest value. */
  function Bound(tick: nat): nat { if tick == MAX_TICK then MAX_TICK else tick + 1 }

  lemma Restamped(cache: Cache, list: seq<Image>, tick: nat, image: Image)
    requires Represents(cache, list, tick) && tick <= MAX_TICK && Positive(cache)
    ensures Represents(Stamped(cache, image, NextTick(tick)), Moved(list, image, tick == MAX_TICK), Bound(tick))
    ensures tick < MAX_TICK ==> Positive(Stamped(cache, image, NextTick(tick)))
  {
    hide Represents, Without;
    if tick == MAX_TICK {
      StampBack(cache, list, tick, image);
    } else {
      StampFront(cache, list, tick, image);
      assert NextTick(tick) == tick + 1;
    }
  }

  /** Leaving a name out keeps the order of the rest. */
  lemma {:induction false} OrderOfWithout(cache: Cache, list: seq<Image>, name: string)
    requires (forall i :: i in list ==> i.name in cache) && Descending(cache, list)
    ensures forall i :: i in Without(list, name) ==> i in list
    ensures Descending(cache, Without(list, name))
  {
    WithoutMembers(list, name);
    if list != [] {
      var tail := list[1..];
      assert forall i :: i in tail ==> i in list;
      TailDescends(cache, list);
      OrderOfWithout(cache, tail, name);
      WithoutMembers(tail, name);
      ConsDescends(cache, list[0], Without(tail, name));
    }
  }

  lemma TailDescends(cache: Cache, list: seq<Image>)
    requires list != [] && (forall i :: i in list ==> i.name in cache) && Descending(cache, list)
    ensures forall i :: i in list[1..] ==> i in list && cache[list[0].name].used > cache[i.name].used
    ensures Descending(cache, list[1..])
  {
    var tail := list[1..];
    forall i | i in tail ensures i in list && cache[list[0].name].used > cache[i.name].used {
      var k :| 0 <= k < |tail| && tail[k] == i;
      assert list[k + 1] == i;
    }
  }

  lemma ConsDescends(cache: Cache, first: Image, rest: seq<Image>)
    requires first.name in cache
             && (forall i :: i in rest ==> i.name in cache && cache[first.name].used > cache[i.name].used)
    requires Descending(cache, rest)
    ensures (forall i :: i in [first] + rest ==> i.name in cache) && Descending(cache, [first] + rest)
  {
    var list := [first] + rest;
    forall i, j | 0 <= i < j < |list| ensures cache[list[i].name].used > cache[list[j].name].used {
      assert list[j] == rest[j - 1] && rest[j - 1] in rest;
      if i > 0 {
        assert list[i] == rest[i - 1] && rest[i - 1] in rest;
      }
    }
  }

  /** The entry with the least stamp is the list's last, so dropping it drops the last. */
  lemma DropColdest(cache: Cache, list: seq<Image>, tick: nat, key: string)
    requires Represents(cache, list, tick) && key in cache
    requires forall k :: k in cache ==> cache[key].used <= cache[k].used
    ensures list != [] && DistinctImages(list) && key == list[|list| - 1].name
    ensures cache[key].tag == TagOf(key, list[|list| - 1].version)
    ensures Represents(cache - {key}, list[..|list| - 1], tick)
  {
    var x :| x in list && x.name == key;
    ColdestIsLast(cache, list, x);
    LastNameGone(list);
    hide NamesOf, DistinctImages;
    assert Entered(cache, x, tick);
    var n := |list| - 1;
    forall i | i in list[..n] ensures i.name in cache - {key} && (cache - {key})[i.name] == cache[i.name] {
      assert i in list && Entered(cache, i, tick);
    }
    DescendingInit(cache, cache - {key}, list);
    hide Descending;
    forall i | i in list[..n] ensures Entered(cache - {key}, i, tick) {
      assert i in list && Entered(cache, i, tick) && i.name != key;
    }
  }

  lemma ColdestIsLast(cache: Cache, list: seq<Image>, x: Image)
    requires x in list && (forall i :: i in list ==> i.name in cache) && Descending(cache, list)
    requires forall k :: k in cache ==> cache[x.name].used <= cache[k].used
    ensures x == list[|list| - 1]
  {
    var k :| 0 <= k < |list| && list[k] == x;
    assert list[|list| - 1] in list;
  }

  lemma DescendingInit(before: Cache, after: Cache, list: seq<Image>)
    requires list != [] && (forall i :: i in list ==> i.name in before) && Descending(before, list)
    requires forall i :: i in list[..|list| - 1] ==> i.name in after && after[i.name] == before[i.name]
    ensures Descending(after, list[..|list| - 1])
  {
    var init := list[..|list| - 1];
    forall i, j | 0 <= i < j < |init| ensures after[init[i].name].used > after[init[j].name].used {
      assert init[i] in init && init[j] in init && init[i] == list[i] && init[j] == list[j];
    }
  }

  lemma LastNameGone(list: seq<Image>)
    requires list != [] && DistinctImages(list)
    ensures NamesOf(list[..|list| - 1]) == NamesOf(list) - {list[|list| - 1].name}
    ensures DistinctImages(list[..|list| - 1])
    ensures forall i :: i in list[..|list| - 1] ==>
              i in list && i.name != list[|list| - 1].name && i.name in NamesOf(list)
  {
    var init, last := list[..|list| - 1], list[|list| - 1];
    assert list == init + [last];
    forall i | i in init ensures i.name != last.name && i in list {}
  }

  /** A cache over its cap has an entry stamped below the counter's greatest value. */
  lemma SomeStampIsLow(cache: Cache, list: seq<Image>, tick: nat)
    requires Represents(cache, list, tick) && tick <= MAX_TICK && |cache| > 1
    ensures exists k :: k in cache && cache[k].used < MAX_TICK
  {
    SameSize(list);
    assert list[0] in list && list[1] in list;
    assert Entered(cache, list[0], tick) && Entered(cache, list[1], tick);
    assert cache[list[1].name].used < cache[list[0].name].used;
  }

  // ---- Tags ----

  /** Image names without ':' keep their tags apart. */
  lemma TagsApart(a: string, v: string, b: string, w: string)
    requires ':' !in a && ':' !in b && TagOf(a, v) == TagOf(b, w)
    ensures a == b && ShortVersion(v) == ShortVersion(w)
  {
    var t := TagOf(a, v);
    ColonAt(a, v);
    ColonAt(b, w);
    assert t[|a|] == ':' && t[|b|] == ':';
    assert |a| <= |b| && |b| <= |a|;
    assert a == t[..|a|] && b == t[..|b|];
    assert ShortVersion(v) == t[|a| + 1..] && ShortVersion(w) == t[|b| + 1..];
  }

  /** Two commits of one name that differ in their first 12 characters have different tags. */
  lemma CommitsApart(name: string, v: string, w: string)
    requires |v| == |w| == 40 && v[..12] != w[..12]
    ensures TagOf(name, v) != TagOf(name, w)
    ensures TagOf(name, v)[|name| + 1..] == v[..12] && TagOf(name, w)[|name| + 1..] == w[..12]
  {
    assert TagOf(name, v)[|name| + 1..] == v[..12] && TagOf(name, w)[|name| + 1..] == w[..12];
  }

  lemma ColonAt(a: string, v: string)
    ensures TagOf(a, v)[|a|] == ':' && forall k :: 0 <= k < |a| ==> TagOf(a, v)[k] == a[k]
  {
  }

  ghost predicate PlainNames(list: seq<Image>) { forall i :: i in list ==> ':' !in i.name }

  /** Every image the cache would hand out is there. */
  lemma Previous(cache: Cache, list: seq<Image>, tick: nat, name: string) returns (i: Image)
    requires Represents(cache, list, tick) && name in cache
    ensures i in list && i.name == name && cache[name].tag == TagOf(name, i.version)
  {
    i :| i in list && i.name == name;
    assert Entered(cache, i, tick);
  }

  lemma LaterTick(cache: Cache, list: seq<Image>, tick: nat, later: nat)
    requires Represents(cache, list, tick) && tick <= later
    ensures Represents(cache, list, later)
  {
    forall i | i in list ensures Entered(cache, i, later) {
      assert Entered(cache, i, tick);
    }
  }

  lemma SizesAgree(cache: Cache, list: seq<Image>, tick: nat)
    requires Represents(cache, list, tick)
    ensures |cache| == |list| && DistinctImages(list)
  {
    SameSize(list);
  }

  /** What an image in docker's store was built from. */
  datatype Content = Content(image: Image, dockerfile: string)

  type Images = map<string, Content>

  /** The tag names an image of that content. */
  predicate Stored(images: Images, c: Content)
  {
    var t := TagOf(c.image.name, c.image.version);
    t in images && images[t] == c
  }

  /** Every cached image is in docker's store, and was built with the Dockerfile on record. */
  ghost predicate Backed(list: seq<Image>, made: map<string, string>, images: Images)
  {
    forall i :: i in list ==> i.name in made && Stored(images, Content(i, made[i.name]))
  }

  /** The image is still there, unless it was evicted at once and its removal worked. */
  ghost predicate Delivered(c: Content, list: seq<Image>, images: Images, rm: string -> bool)
  {
    Stored(images, c) <==> c.image in list || !rm(TagOf(c.image.name, c.image.version))
  }

  /** The Dockerfile behind each name's latest image. A hit asks for no build, whatever the
      Dockerfile is by then. */
  function MadeAfter(made: map<string, string>, list: seq<Image>, image: Image, dockerfile: string, builds: bool)
    : map<string, string>
  {
    if image in list || !builds then made else made[image.name := dockerfile]
  }

  class Builder {
    const max: nat
    var cache: Cache
    var tick: nat
    /** docker's image store, as far as this builder loads and removes. */
    var images: Images
    ghost var recent: seq<Image>
    ghost var made: map<string, string>

    /** As long as the counter has not wrapped. */
    ghost predicate Valid()
      reads this
    {
      max >= 1 && tick <= MAX_TICK && |recent| <= max && Represents(cache, recent, tick) && Positive(cache)
    }

    constructor (max: int)
      ensures Valid() && recent == [] && tick == 0 && this.max == (if max < 1 then 1 else max)
      ensures images == map[] && made == map[]
    {
      this.max := if max < 1 then 1 else max;
      cache, tick, images, recent, made := map[], 0, map[], [], map[];
    }

    /** One request: hit, failed context or build, or a build that replaces and evicts. rm is
        how removing each image ends; a failure is only logged. When the counter wraps, the
        image moves to the end of the list, and a new one may be evicted at once, so that the
        tag returned names no image. What the tag names was built with the Dockerfile of the
        request only if it missed. */
    method Build(image: Image, dockerfile: string, contextOk: bool, buildOk: bool, rm: string -> bool)
      returns (tag: Option<string>)
      requires Valid()
      modifies this
      ensures tick == (old(tick) + 1) % 0x1_0000_0000_0000_0000
      ensures tick == NextTick(old(tick)) && |recent| <= max && Represents(cache, recent, Bound(old(tick)))
      ensures old(tick) < MAX_TICK ==> Valid() && recent == Requested(old(recent), max, image, contextOk && buildOk)
      ensures old(tick) == MAX_TICK ==> recent == Wrapped(old(recent), max, image, contextOk && buildOk)
      ensures tag == if Served(old(recent), image, contextOk && buildOk) then Some(TagOf(image.name, image.version))
              else None
      ensures tag.Some? ==>
                tag.value == image.name + ":" + if |image.version| > 12 then image.version[..12] else image.version
      ensures made == MadeAfter(old(made), old(recent), image, dockerfile, contextOk && buildOk)
      ensures old(Backed(recent, made, images)) && PlainNames(old(recent)) && ':' !in image.name ==>
                && Backed(recent, made, images)
                && (tag.Some? ==>
                      image.name in made && Delivered(Content(image, made[image.name]), recent, images, rm))
    {
      hide Represents, Backed, PlainNames, Delivered;
      HitIff(cache, recent, tick, image);
      LaterTick(cache, recent, tick, Bound(tick));
      tick := (tick + 1) % (MAX_TICK + 1);
      if image.name in cache && cache[image.name].version == image.version {
        tag := Hit(image, old(tick), rm);
        return;
      }
      if !contextOk {
        return None;
      }
      var t := image.name + ":" + ShortVersion(image.version);
      if !buildOk {
        return None;
      }
      Keep(image, dockerfile, t, rm, old(tick));
      return Some(t);
    }

    /** What was just built goes in: it supersedes its name's image, and may push one out. */
    method Keep(image: Image, dockerfile: string, t: string, rm: string -> bool, ghost was: nat)
      requires max >= 1 && was <= MAX_TICK && tick == NextTick(was) && |recent| <= max
      requires Represents(cache, recent, was) && Positive(cache) && t == TagOf(image.name, image.version)
      modifies this`cache, this`recent, this`images, this`made
      ensures Represents(cache, recent, Bound(was)) && |recent| <= max && (was < MAX_TICK ==> Positive(cache))
      ensures recent == Cut(Moved(old(recent), image, was == MAX_TICK), max)
      ensures made == old(made)[image.name := dockerfile]
      ensures old(Backed(recent, made, images)) && PlainNames(old(recent)) && ':' !in image.name ==>
                Backed(recent, made, images) && Delivered(Content(image, dockerfile), recent, images, rm)
    {
      hide Represents, Backed, PlainNames, Delivered;
      SizesAgree(cache, recent, was);
      Restamped(cache, recent, was, image);
      images := images[t := Content(image, dockerfile)];
      if image.name in cache && cache[image.name].tag != t {
        ghost var previous := Previous(cache, recent, was, image.name);
        RemoveImage(cache[image.name].tag, rm);
      }
      BackedAfterReplace(recent, made, old(images), images, image, dockerfile, was == MAX_TICK);
      MovedFits(recent, max, image, was == MAX_TICK);
      cache := cache[image.name := Entry(image.version, t, tick)];
      recent := Moved(recent, image, was == MAX_TICK);
      made := made[image.name := dockerfile];
      label stored:
      Evict(rm, Bound(was));
      StillThere(old@stored(recent), made, max, old@stored(images), images, image, rm);
    }

    /** The entry is there: only its stamp moves. */
    method Hit(image: Image, ghost was: nat, ghost rm: string -> bool) returns (tag: Option<string>)
      requires max >= 1 && was <= MAX_TICK && tick == NextTick(was) && |recent| <= max
      requires Represents(cache, recent, was) && Positive(cache) && image in recent
      modifies this`cache, this`recent
      ensures Represents(cache, recent, Bound(was)) && |recent| <= max && (was < MAX_TICK ==> Positive(cache))
      ensures recent == Cut(Moved(old(recent), image, was == MAX_TICK), max) && image in recent
      ensures tag == Some(TagOf(image.name, image.version))
      ensures Backed(old(recent), made, images) ==>
                && Backed(recent, made, images)
                && image.name in made && Delivered(Content(image, made[image.name]), recent, images, rm)
    {
      assert Entered(cache, image, was);
      SizesAgree(cache, recent, was);
      Restamped(cache, recent, was, image);
      hide Represents, Backed, Delivered, Without, Positive;
      var e := cache[image.name];
      cache := cache[image.name := e.(used := tick)];
      HitFits(recent, max, image, was == MAX_TICK);
      MovedFits(recent, max, image, was == MAX_TICK);
      BackedAfterHit(recent, made, images, image, was == MAX_TICK, rm);
      recent := Moved(recent, image, was == MAX_TICK);
      return Some(e.tag);
    }

    /** Down to the cap, coldest first. bound is what bounds the stamps. */
    method Evict(rm: string -> bool, ghost bound: nat)
      requires max >= 1 && bound <= MAX_TICK && Represents(cache, recent, bound)
      modifies this`cache, this`recent, this`images
      ensures Represents(cache, recent, bound)
      ensures forall k :: k in cache ==> k in old(cache) && cache[k] == old(cache)[k]
      ensures recent == Cut(old(recent), max)
      ensures |old(recent)| <= max ==> images == old(images)
      ensures |old(recent)| == max + 1 ==> images == Removed(old(images), old(recent)[max], rm)
      ensures PlainNames(old(recent)) && Backed(old(recent), made, old(images)) ==> Backed(recent, made, images)
    {
      hide Represents, Backed, PlainNames, Removed;
      SizesAgree(cache, recent, bound);
      while |cache| > max
        invariant Represents(cache, recent, bound) && |cache| == |recent|
        invariant forall k :: k in cache ==> k in old(cache) && cache[k] == old(cache)[k]
        invariant |recent| <= |old(recent)| && recent == old(recent)[..|recent|]
        invariant |recent| >= max || recent == old(recent)
        invariant recent == old(recent) ==> images == old(images)
        invariant |recent| == |old(recent)| - 1 ==> images == Removed(old(images), old(recent)[|recent|], rm)
        invariant PlainNames(old(recent)) && Backed(old(recent), made, old(images)) ==>
                  PlainNames(recent) && Backed(recent, made, images)
        decreases |recent|
      {
        EvictOne(rm, bound);
      }
    }

    method EvictOne(rm: string -> bool, ghost bound: nat)
      requires bound <= MAX_TICK && Represents(cache, recent, bound) && |cache| == |recent| && |cache| > 1
      modifies this`cache, this`recent, this`images
      ensures Represents(cache, recent, bound) && |cache| == |recent|
      ensures forall k :: k in cache ==> k in old(cache) && cache[k] == old(cache)[k]
      ensures recent == old(recent)[..|old(recent)| - 1]
      ensures images == Removed(old(images), old(recent)[|old(recent)| - 1], rm)
      ensures PlainNames(old(recent)) && Backed(old(recent), made, old(images)) ==>
                PlainNames(recent) && Backed(recent, made, images)
    {
      hide Represents;
      SomeStampIsLow(cache, recent, bound);
      var key := Coldest();
      DropColdest(cache, recent, bound, key);
      BackedAfterDrop(recent, made, images);
      RemoveImage(cache[key].tag, rm);
      cache := cache - {key};
      recent := recent[..|recent| - 1];
      SizesAgree(cache, recent, bound);
    }

    /** The least recently used entry, whatever order the map is walked in. */
    method Coldest() returns (lruKey: string)
      requires exists k :: k in cache && cache[k].used < MAX_TICK
      ensures lruKey in cache && forall k :: k in cache ==> cache[lruKey].used <= cache[k].used
    {
      lruKey := "";
      var lruUsed: nat := MAX_TICK;
      var left := cache.Keys;
      while left != {}
        invariant left <= cache.Keys && lruUsed <= MAX_TICK
        invariant forall k :: k in cache.Keys - left ==> lruUsed <= cache[k].used
        invariant lruUsed < MAX_TICK ==> lruKey in cache && cache[lruKey].used == lruUsed
        decreases left
      {
        var k :| k in left;
        if cache[k].used < lruUsed {
          lruUsed, lruKey := cache[k].used, k;
        }
        left := left - {k};
      }
    }

    method RemoveImage(tag: string, rm: string -> bool)
      modifies this`images
      ensures images == if rm(tag) then old(images) - {tag} else old(images)
    {
      if rm(tag) {
        images := images - {tag};
      }
    }
  }

  /** docker's images after an attempt to remove one. */
  function Removed(images: Images, image: Image, rm: string -> bool): Images
  {
    var t := TagOf(image.name, image.version);
    if rm(t) then images - {t} else images
  }

  /** What a build just made is delivered, when eviction removes at most one image. */
  lemma StillThere(list: seq<Image>, made: map<string, string>, max: nat, before: Images, after: Images, image: Image,
                   rm: string -> bool)
    requires max >= 1 && |list| <= max + 1 && DistinctImages(list) && image in list && image.name in made
    requires list[0] == image || list[|list| - 1] == image
    requires after == if |list| <= max then before else Removed(before, list[max], rm)
    ensures PlainNames(list) && Backed(list, made, before) ==>
              Delivered(Content(image, made[image.name]), Cut(list, max), after, rm)
  {
    if PlainNames(list) && Backed(list, made, before) {
      var kept := Cut(list, max);
      assert Stored(before, Content(image, made[image.name]));
      if |list| > max {
        if list[0] == image {
          assert kept[0] == image && list[max].name != image.name && list[max] in list;
          if TagOf(image.name, image.version) == TagOf(list[max].name, list[max].version) {
            TagsApart(image.name, image.version, list[max].name, list[max].version);
          }
        } else {
          assert list[max] == image && image !in kept;
        }
      }
    }
  }

  lemma MovedFits(list: seq<Image>, max: nat, image: Image, wraps: bool)
    requires DistinctImages(list) && |list| <= max
    ensures var moved := Moved(list, image, wraps);
            && DistinctImages(moved) && image in moved && |moved| <= max + 1
            && (moved[0] == image || moved[|moved| - 1] == image)
  {
    MovedNames(list, image, wraps);
    WithoutMembers(list, image.name);
  }

  lemma BackedAfterHit(list: seq<Image>, made: map<string, string>, images: Images, image: Image, wraps: bool,
                       rm: string -> bool)
    requires image in list
    ensures Backed(list, made, images) ==>
              && Backed(Moved(list, image, wraps), made, images)
              && image.name in made
              && Delivered(Content(image, made[image.name]), Moved(list, image, wraps), images, rm)
  {
    MovedNames(list, image, wraps);
    WithoutMembers(list, image.name);
  }

  /** A hit never outgrows the cap. */
  lemma HitFits(list: seq<Image>, max: nat, image: Image, wraps: bool)
    requires DistinctImages(list) && image in list && |list| <= max
    ensures |Moved(list, image, wraps)| == |list| && Cut(Moved(list, image, wraps), max) == Moved(list, image, wraps)
  {
    MovedNames(list, image, wraps);
    assert NamesOf(list) + {image.name} == NamesOf(list);
    SameSize(list);
    SameSize(Moved(list, image, wraps));
  }

  /** Dropping the last entry's image takes no other entry's. */
  lemma BackedAfterDrop(list: seq<Image>, made: map<string, string>, images: Images)
    requires list != [] && DistinctImages(list)
    ensures PlainNames(list) ==> PlainNames(list[..|list| - 1])
    ensures PlainNames(list) && Backed(list, made, images) ==>
              Backed(list[..|list| - 1], made, images - {TagOf(list[|list| - 1].name, list[|list| - 1].version)})
  {
    var last := list[|list| - 1];
    forall i | i in list[..|list| - 1] && PlainNames(list)
      ensures TagOf(i.name, i.version) != TagOf(last.name, last.version)
    {
      if TagOf(i.name, i.version) == TagOf(last.name, last.version) {
        TagsApart(i.name, i.version, last.name, last.version);
      }
    }
  }

  /** A fresh build, and the removal of the image it supersedes, back the list they leave:
      two versions with one short form share one tag, which then is not removed. */
  lemma BackedAfterReplace(list: seq<Image>, made: map<string, string>, before: Images, after: Images, image: Image,
                           dockerfile: string, wraps: bool)
    requires DistinctImages(list)
    requires var t := TagOf(image.name, image.version);
             || after == before[t := Content(image, dockerfile)]
             || exists p :: p in list && p.name == image.name && TagOf(p.name, p.version) != t
                  && after == before[t := Content(image, dockerfile)] - {TagOf(p.name, p.version)}
    ensures Backed(list, made, before) && PlainNames(list) && ':' !in image.name ==>
              && Backed(Moved(list, image, wraps), made[image.name := dockerfile], after)
              && PlainNames(Moved(list, image, wraps))
  {
    MovedNames(list, image, wraps);
    WithoutMembers(list, image.name);
    var next := made[image.name := dockerfile];
    if Backed(list, made, before) && PlainNames(list) && ':' !in image.name {
      forall i | i in Moved(list, image, wraps)
        ensures i.name in next && Stored(after, Content(i, next[i.name])) && ':' !in i.name
      {
        if i != image {
          assert i in Without(list, image.name) && Stored(before, Content(i, made[i.name]));
          OthersKeepTheirTag(list, before, after, image, dockerfile, i);
        }
      }
    }
  }

  lemma OthersKeepTheirTag(list: seq<Image>, before: Images, after: Images, image: Image, dockerfile: string, i: Image)
    requires PlainNames(list) && ':' !in image.name && i in list && i.name != image.name
    requires TagOf(i.name, i.version) in before
    requires var t := TagOf(image.name, image.version);
             || after == before[t := Content(image, dockerfile)]
             || exists p :: p in list && p.name == image.name && TagOf(p.name, p.version) != t
                  && after == before[t := Content(image, dockerfile)] - {TagOf(p.name, p.version)}
    ensures var t := TagOf(i.name, i.version); t in after && after[t] == before[t]
  {
    var u := TagOf(i.name, i.version);
    if u == TagOf(image.name, image.version) {
      TagsApart(i.name, i.version, image.name, image.version);
    }
    if p :| p in list && p.name == image.name && u == TagOf(p.name, p.version) {
      TagsApart(i.name, i.version, p.name, p.version);
    }
  }

  // ---- Whole histories ----

  /** One call of Build: what was asked, by which Dockerfile it is built, and whether a build of
      it would work out. */
  datatype Request = Request(image: Image, dockerfile: string, builds: bool)

  function ListAfter(reqs: seq<Request>, max: nat): seq<Image>
  {
    if reqs == [] then []
    else Requested(ListAfter(reqs[..|reqs| - 1], max), max, reqs[|reqs| - 1].image, reqs[|reqs| - 1].builds)
  }

  /** The images that were served, in order. */
  function ServedBy(reqs: seq<Request>, max: nat): seq<Image>
  {
    if reqs == [] then []
    else
      var init, last := reqs[..|reqs| - 1], reqs[|reqs| - 1];
      ServedBy(init, max) + if Served(ListAfter(init, max), last.image, last.builds) then [last.image] else []
  }

  /** The uncut move-to-front list of what was served. */
  function Recency(images: seq<Image>): seq<Image>
  {
    if images == [] then [] else ToFront(Recency(images[..|images| - 1]), images[|images| - 1])
  }

  function Stamps(images: seq<Image>): Cache
  {
    if images == [] then map[] else Stamped(Stamps(images[..|images| - 1]), images[|images| - 1], |images|)
  }

  /** Each served name, at the version and the place of its last serving. */
  lemma {:induction false} StampsAreLastServings(images: seq<Image>, name: string)
    ensures name in Stamps(images) <==> name in NamesOf(images)
    ensures name in Stamps(images) ==>
              var k := Stamps(images)[name].used - 1;
              && 0 <= k < |images| && images[k] == Image(name, Stamps(images)[name].version)
              && forall j :: k < j < |images| ==> images[j].name != name
  {
    if images != [] {
      var init, last := images[..|images| - 1], images[|images| - 1];
      StampsAreLastServings(init, name);
      NamesNext(init, last);
      assert images == init + [last];
      assert forall j :: 0 <= j < |init| ==> images[j] == init[j];
      hide NamesOf;
    }
  }

  /** Recency lists exactly the served names, each at its last served version, by last serving. */
  lemma {:induction false} RecencyIsLastServed(images: seq<Image>)
    ensures Represents(Stamps(images), Recency(images), |images|)
  {
    if images != [] {
      RecencyIsLastServed(images[..|images| - 1]);
      StampFront(Stamps(images[..|images| - 1]), Recency(images[..|images| - 1]), |images| - 1, images[|images| - 1]);
    }
  }

  lemma WithoutSize(list: seq<Image>, name: string)
    requires DistinctImages(list)
    ensures |list| - 1 <= |Without(list, name)| <= |list|
  {
    if list != [] {
      assert DistinctImages(list[1..]);
      if list[0].name == name {
        WithoutAbsent(list[1..], name);
      } else {
        WithoutSize(list[1..], name);
      }
    }
  }

  /** Cutting early loses nothing that a later cut would keep. */
  lemma CutTwice(list: seq<Image>, max: nat, image: Image)
    requires DistinctImages(list) && max >= 1
    ensures Cut(ToFront(Cut(list, max), image), max) == Cut(ToFront(list, image), max)
  {
    if |list| > max {
      var head, tail := list[..max], list[max..];
      assert list == head + tail && DistinctImages(head);
      WithoutAppend(head, tail, image.name);
      WithoutSize(head, image.name);
      var kept := Without(head, image.name);
      assert [image] + (kept + Without(tail, image.name)) == ([image] + kept) + Without(tail, image.name);
    }
  }

  /** The LRU law: after any history, failed builds included, the cache is the max most
      recently served names, each at the version it was last served at. */
  lemma {:induction false} CacheIsLastServed(reqs: seq<Request>, max: nat)
    requires max >= 1
    ensures ListAfter(reqs, max) == Cut(Recency(ServedBy(reqs, max)), max)
  {
    if reqs != [] {
      var init, last := reqs[..|reqs| - 1], reqs[|reqs| - 1];
      CacheIsLastServed(init, max);
      if Served(ListAfter(init, max), last.image, last.builds) {
        var before := ServedBy(init, max);
        RecencyIsLastServed(before);
        CutTwice(Recency(before), max, last.image);
        assert (before + [last.image])[..|before|] == before;
      } else {
        assert ServedBy(init, max) + [] == ServedBy(init, max);
      }
    }
  }

  /** The Dockerfile behind each name's latest image, over a history. */
  function MadeBy(reqs: seq<Request>, max: nat): map<string, string>
  {
    if reqs == [] then map[]
    else
      var init, last := reqs[..|reqs| - 1], reqs[|reqs| - 1];
      MadeAfter(MadeBy(init, max), ListAfter(init, max), last.image, last.dockerfile, last.builds)
  }

  /** What building every time would answer. */
  function AlwaysBuild(r: Request): Option<Content>
  {
    if r.builds then Some(Content(r.image, r.dockerfile)) else None
  }

  /** What the builder answers: the content of the image its tag names. */
  function Answer(reqs: seq<Request>, max: nat, r: Request): Option<Content>
    requires r.image in ListAfter(reqs, max) ==> r.image.name in MadeBy(reqs, max)
  {
    if r.image in ListAfter(reqs, max) then Some(Content(r.image, MadeBy(reqs, max)[r.image.name])) else AlwaysBuild(r)
  }

  /** The k-th request built this image, and it has been cached ever since. */
  ghost predicate BuiltAt(reqs: seq<Request>, max: nat, image: Image, k: nat)
  {
    && k < |reqs| && reqs[k].image == image && reqs[k].builds
    && forall l :: k <= l < |reqs| ==> (image in ListAfter(reqs[..l], max) <==> l > k)
  }

  /** A cached image was built by a request for exactly that version, and with that request's
      Dockerfile. */
  lemma {:induction false} HitWasBuilt(reqs: seq<Request>, max: nat, image: Image) returns (k: nat)
    requires image in ListAfter(reqs, max)
    ensures BuiltAt(reqs, max, image, k)
    ensures image.name in MadeBy(reqs, max) && MadeBy(reqs, max)[image.name] == reqs[k].dockerfile
  {
    var init, last := reqs[..|reqs| - 1], reqs[|reqs| - 1];
    hide BuiltAt;
    if image in ListAfter(init, max) {
      k := HitWasBuilt(init, max, image);
      OnlyHitSince(reqs, max, image);
      BuiltEarlier(reqs, max, image, k);
    } else {
      k := |init|;
      BuiltNow(reqs, max, image);
    }
  }

  lemma BuiltNow(reqs: seq<Request>, max: nat, image: Image)
    requires reqs != [] && image in ListAfter(reqs, max) && image !in ListAfter(reqs[..|reqs| - 1], max)
    ensures BuiltAt(reqs, max, image, |reqs| - 1)
    ensures image.name in MadeBy(reqs, max) && MadeBy(reqs, max)[image.name] == reqs[|reqs| - 1].dockerfile
  {
    var init, last := reqs[..|reqs| - 1], reqs[|reqs| - 1];
    WithoutMembers(ListAfter(init, max), last.image.name);
    assert image in ToFront(ListAfter(init, max), last.image);
  }

  lemma BuiltEarlier(reqs: seq<Request>, max: nat, image: Image, k: nat)
    requires reqs != [] && BuiltAt(reqs[..|reqs| - 1], max, image, k) && image in ListAfter(reqs[..|reqs| - 1], max)
    ensures BuiltAt(reqs, max, image, k)
  {
    hide ListAfter;
    var init := reqs[..|reqs| - 1];
    assert init[k] == reqs[k];
    forall l | k <= l < |reqs| ensures image in ListAfter(reqs[..l], max) <==> l > k {
      if l < |init| {
        assert init[..l] == reqs[..l];
      }
    }
  }

  /** While a name's cached image stays the same, nobody rebuilt it. */
  lemma OnlyHitSince(reqs: seq<Request>, max: nat, image: Image)
    requires reqs != [] && image in ListAfter(reqs, max) && image in ListAfter(reqs[..|reqs| - 1], max)
    ensures image.name in MadeBy(reqs[..|reqs| - 1], max) ==>
              && image.name in MadeBy(reqs, max)
              && MadeBy(reqs, max)[image.name] == MadeBy(reqs[..|reqs| - 1], max)[image.name]
  {
    var init, last := reqs[..|reqs| - 1], reqs[|reqs| - 1];
    WithoutMembers(ListAfter(init, max), last.image.name);
  }

  /** The cache answers as always building does, except in two ways: it spares a build that
      would fail now; and what it answers was built with the Dockerfile of the request that
      built it, which is the present one's exactly when that did not change since. */
  lemma CacheAgreesWithBuilding(reqs: seq<Request>, max: nat, r: Request) returns (k: nat)
    ensures r.image !in ListAfter(reqs, max) ==> Answer(reqs, max, r) == AlwaysBuild(r)
    ensures r.image in ListAfter(reqs, max) ==>
              && BuiltAt(reqs, max, r.image, k) && r.image.name in MadeBy(reqs, max)
              && Answer(reqs, max, r) == AlwaysBuild(reqs[k])
              && (Answer(reqs, max, r) == AlwaysBuild(r.(builds := true)) <==> reqs[k].dockerfile == r.dockerfile)
  {
    if r.image in ListAfter(reqs, max) {
      k := HitWasBuilt(reqs, max, r.image);
    } else {
      k := 0;
    }
  }

  /** So it agrees on histories in which no image is ever asked for with two Dockerfiles. */
  lemma OneDockerfileAgrees(reqs: seq<Request>, max: nat, r: Request)
    requires forall i :: 0 <= i < |reqs| && reqs[i].image == r.image ==> reqs[i].dockerfile == r.dockerfile
    ensures r.image in ListAfter(reqs, max) ==> r.image.name in MadeBy(reqs, max)
    ensures Answer(reqs, max, r) == AlwaysBuild(r.(builds := Served(ListAfter(reqs, max), r.image, r.builds)))
  {
    var k := CacheAgreesWithBuilding(reqs, max, r);
  }

  /** And an edit of the Dockerfile alone is always missed: once a request was served, the same
      version under any other Dockerfile gets the image that was there. */
  lemma DockerfileEditIsMissed(reqs: seq<Request>, max: nat, r: Request, dockerfile: string)
    requires max >= 1 && Served(ListAfter(reqs, max), r.image, r.builds)
    requires r.image in ListAfter(reqs, max) ==> r.image.name in MadeBy(reqs, max)
    ensures r.image in ListAfter(reqs + [r], max) && r.image.name in MadeBy(reqs + [r], max)
    ensures Answer(reqs + [r], max, r.(dockerfile := dockerfile)) == Answer(reqs, max, r)
  {
    assert (reqs + [r])[..|reqs|] == reqs;
    assert ListAfter(reqs + [r], max)[0] == r.image;
  }

  // ---- What the hypotheses are for ----

  /** A request that meets the wrapping counter is forgotten exactly when the cache is full of
      other names; the next eviction takes any other it serves. */
  lemma WrapForgetsTheNewest(list: seq<Image>, max: nat, image: Image, builds: bool)
    requires DistinctImages(list) && |list| <= max && max >= 1 && Served(list, image, builds)
    ensures image in Wrapped(list, max, image, builds) <==> image.name in NamesOf(list) || |list| < max
    ensures image !in Wrapped(list, max, image, builds) ==> Wrapped(list, max, image, builds) == list
    ensures image in Wrapped(list, max, image, builds) ==>
              var w := Wrapped(list, max, image, builds); w[|w| - 1] == image
  {
    MovedNames(list, image, true);
    WithoutMembers(list, image.name);
    WithoutSize(list, image.name);
    if image.name in NamesOf(list) {
      var x :| x in list && x.name == image.name;
      SameSize(list);
      SameSize(ToBack(list, image));
      assert NamesOf(list) + {image.name} == NamesOf(list);
    } else {
      forall i | i in list ensures i.name != image.name { assert i.name in NamesOf(list); }
      WithoutAbsent(list, image.name);
    }
    var back := ToBack(list, image);
    assert back[|back| - 1] == image;
    if |back| > max {
      assert back[..max] == list;
    }
  }

  /** With ':' in names two entries can share a tag, and invalidating one takes the other's image. */
  lemma ColonsCollide(a: string, b: string, version: string)
    requires |b| + 1 + |version| <= 12
    ensures TagOf(a, b + ":" + version) == TagOf(a + ":" + b, version)
  {
    assert a + ":" + (b + ":" + version) == (a + ":" + b) + ":" + version;
  }
}
