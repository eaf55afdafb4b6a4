/** The Session route map (internal/proxy/proxy.go): every goroutine of the control plane
    reads and writes it, one locked method at a time. */
module Registry {
  import opened Text
  import opened NetAddr

  datatype State = Booting | Live | Failed | Crashed {
    predicate Terminal() { this == Failed || this == Crashed }
  }

  datatype Backend = Backend(pathPrefix: string, url: string)

  const NO_BACKEND := Backend("", "")

  datatype Route = Route(sessionId: string, host: string, state: State, ui: Backend, apis: seq<Backend>)

  type Routes = map<string, Route>

  function HostOf(domain: string, id: string): string { "s-" + id + ".run." + domain }

  // What each locked method does to the map.

  function Added(domain: string, routes: Routes, id: string, ui: Backend, apis: seq<Backend>): Routes
  {
    routes[id := Route(id, HostOf(domain, id), Booting, ui, apis)]
  }

  function Promoted(routes: Routes, id: string): Routes
  {
    if id in routes then routes[id := routes[id].(state := Live)] else routes
  }

  function FailedAs(domain: string, routes: Routes, id: string, state: State): Routes
  {
    if id in routes then routes[id := routes[id].(state := state, ui := NO_BACKEND, apis := [])]
    else routes[id := Route(id, HostOf(domain, id), state, NO_BACKEND, [])]
  }

  /** Every route sits under its own id and host, and a terminal one has no backend left. */
  ghost predicate WellFormed(domain: string, routes: Routes)
  {
    forall id :: id in routes ==>
      && routes[id].sessionId == id
      && routes[id].host == HostOf(domain, id)
      && (routes[id].state.Terminal() ==> routes[id].ui == NO_BACKEND && routes[id].apis == [])
  }

  class Registry {
    const domain: string
    var routes: Routes

    constructor (domain: string)
      ensures this.domain == domain && routes == map[] && WellFormed(domain, routes)
    {
      this.domain := domain;
      routes := map[];
    }

    method Add(id: string, ui: Backend, apis: seq<Backend>) returns (route: Route)
      modifies this
      ensures routes == Added(domain, old(routes), id, ui, apis)
      ensures routes == old(routes)[id := Route(id, "s-" + id + ".run." + domain, Booting, ui, apis)]
      ensures id in routes && route == routes[id]
      ensures old(WellFormed(domain, routes)) ==> WellFormed(domain, routes)
    {
      route := Route(id, HostOf(domain, id), Booting, ui, apis);
      routes := routes[id := route];
    }

    method Promote(id: string) returns (present: bool)
      modifies this
      ensures present == (id in old(routes))
      ensures routes == Promoted(old(routes), id)
      ensures present ==> id in routes && routes == old(routes)[id := old(routes)[id].(state := Live)]
      ensures !present ==> routes == old(routes)
      ensures old(WellFormed(domain, routes)) ==> WellFormed(domain, routes)
    {
      if id !in routes {
        return false;
      }
      routes := routes[id := routes[id].(state := Live)];
      return true;
    }

    method Remove(id: string)
      modifies this
      ensures routes == old(routes) - {id}
      ensures old(WellFormed(domain, routes)) ==> WellFormed(domain, routes)
    {
      routes := routes - {id};
    }

    method Fail(id: string, state: State)
      modifies this
      ensures routes == FailedAs(domain, old(routes), id, state)
      ensures var host := if id in old(routes) then old(routes)[id].host else "s-" + id + ".run." + domain;
              var key := if id in old(routes) then old(routes)[id].sessionId else id;
              routes == old(routes)[id := Route(key, host, state, Backend("", ""), [])]
      ensures old(WellFormed(domain, routes)) && state.Terminal() ==> WellFormed(domain, routes)
    {
      var route := Route(id, HostOf(domain, id), Booting, NO_BACKEND, []);
      if id in routes {
        route := routes[id];
      }
      route := route.(state := state);
      route := route.(ui := NO_BACKEND);
      route := route.(apis := []);
      routes := routes[id := route];
    }

    method Len() returns (n: nat)
      ensures n == |routes|
    {
      n := |routes|;
    }

    /** The routes ordered by Session id: whatever order the map is walked in, the one list
        that is strictly increasing in the id and holds exactly the map's values. */
    method Snapshot() returns (out: seq<Route>)
      requires WellFormed(domain, routes)
      ensures Increasing(out)
      ensures forall r :: r in out <==> r.sessionId in routes && routes[r.sessionId] == r
    {
      var list: seq<Route> := [];
      var left := routes.Keys;
      while left != {}
        invariant left <= routes.Keys
        invariant forall r :: r in list <==> r.sessionId in routes.Keys - left && routes[r.sessionId] == r
        invariant Distinct(list)
        decreases left
      {
        var id :| id in left;
        list := list + [routes[id]];
        left := left - {id};
      }
      var a := new Route[|list|](i requires 0 <= i < |list| => list[i]);
      assert a[..] == list;
      SortRoutes(a);
      SortedAndDistinct(list, a[..]);
      out := a[..];
      forall r ensures r in out <==> r in list {
        assert r in multiset(out) <==> r in multiset(list);
      }
    }

    method StateByHost(host: string) returns (state: Option<State>)
      ensures var id := SessionIdFromHost(domain, host);
              state == if id != "" && id in routes then Some(routes[id].state) else None
    {
      var id := SessionIdFromHost(domain, host);
      if id == "" || id !in routes {
        return None;
      }
      return Some(routes[id].state);
    }
  }

  // Ordering by Session id: Go compares strings lexicographically.

  predicate Less(a: string, b: string)
  {
    b != "" && (a == "" || a[0] < b[0] || (a[0] == b[0] && Less(a[1..], b[1..])))
  }

  /** The order of a dictionary: what comes first decides at the first difference, and a text
      comes before what it begins. */
  lemma {:induction false} LessInDictionary(p: string, x: char, s: string, y: char, t: string)
    ensures x < y ==> Less(p + [x] + s, p + [y] + t)
    ensures Less(p, p + [x] + s)
  {
    if p != "" {
      LessInDictionary(p[1..], x, s, y, t);
      assert (p + [x] + s)[1..] == p[1..] + [x] + s && (p + [y] + t)[1..] == p[1..] + [y] + t;
    }
  }

  lemma {:induction false} LessIsStrictOrder(a: string, b: string, c: string)
    ensures !Less(a, a)
    ensures Less(a, b) || Less(b, a) || a == b
    ensures Less(a, b) && Less(b, c) ==> Less(a, c)
  {
    if a != "" {
      LessIsStrictOrder(a[1..], if b == "" then "" else b[1..], if c == "" then "" else c[1..]);
      assert a == [a[0]] + a[1..];
      assert b != "" ==> b == [b[0]] + b[1..];
    }
  }

  ghost predicate Distinct(list: seq<Route>)
  {
    forall i, j :: 0 <= i < j < |list| ==> list[i].sessionId != list[j].sessionId
  }

  ghost predicate Increasing(list: seq<Route>)
  {
    forall i, j :: 0 <= i < j < |list| ==> Less(list[i].sessionId, list[j].sessionId)
  }

  /** No element is followed by one with a smaller id. */
  ghost predicate Ordered(list: seq<Route>)
  {
    forall i, j :: 0 <= i < j < |list| ==> !Less(list[j].sessionId, list[i].sessionId)
  }

  predicate After(a: Route, b: Route) { Less(b.sessionId, a.sessionId) }

  /** The first i + 1 places are in order but for what stands at j, on its way down. */
  ghost predicate OrderedExceptAt(list: seq<Route>, i: nat, j: nat)
  {
    && j <= i < |list|
    && forall p, q :: 0 <= p < q <= i && q != j ==> !After(list[p], list[q])
  }

  function Swapped(list: seq<Route>, j: nat): seq<Route>
    requires 0 < j < |list|
  {
    list[j - 1 := list[j]][j := list[j - 1]]
  }

  lemma SwapMovesTheGap(list: seq<Route>, i: nat, j: nat)
    requires OrderedExceptAt(list, i, j) && 0 < j && After(list[j - 1], list[j])
    ensures OrderedExceptAt(Swapped(list, j), i, j - 1)
    ensures multiset(Swapped(list, j)) == multiset(list)
  {
    LessIsStrictOrder(list[j].sessionId, list[j - 1].sessionId, list[j].sessionId);
  }

  lemma GapClosed(list: seq<Route>, i: nat, j: nat)
    requires OrderedExceptAt(list, i, j) && (j == 0 || !After(list[j - 1], list[j]))
    ensures Ordered(list[..i + 1])
  {
    forall p, q | 0 <= p < q <= i ensures !After(list[p], list[q]) {
      if q == j && p < j - 1 {
        var x, y, z := list[p].sessionId, list[j - 1].sessionId, list[j].sessionId;
        assert !After(list[p], list[j - 1]);
        LessIsStrictOrder(z, x, y);
        LessIsStrictOrder(x, y, z);
      }
    }
  }

  /** Insertion sort in place: the inner loop carries the i-th route down by swaps. */
  method SortRoutes(a: array<Route>)
    modifies a
    ensures multiset(a[..]) == multiset(old(a[..]))
    ensures Ordered(a[..])
  {
    var i := 1;
    while i < a.Length
      invariant 1 <= i && (i <= a.Length || a.Length == 0)
      invariant multiset(a[..]) == multiset(old(a[..]))
      invariant a.Length > 0 ==> Ordered(a[..i])
    {
      var j := i;
      assert OrderedExceptAt(a[..], i, j) by {
        forall p, q | 0 <= p < q < i ensures !After(a[p], a[q]) {
          assert a[..i][p] == a[p] && a[..i][q] == a[q];
        }
      }
      while j > 0 && After(a[j - 1], a[j])
        invariant OrderedExceptAt(a[..], i, j)
        invariant multiset(a[..]) == multiset(old(a[..]))
      {
        SwapMovesTheGap(a[..], i, j);
        ghost var before := a[..];
        a[j - 1], a[j] := a[j], a[j - 1];
        assert a[..] == Swapped(before, j);
        j := j - 1;
      }
      GapClosed(a[..], i, j);
      assert a[..][..i + 1] == a[..i + 1];
      i := i + 1;
    }
    assert a.Length > 0 ==> a[..i] == a[..];
  }

  lemma SortedAndDistinct(before: seq<Route>, sorted: seq<Route>)
    requires Distinct(before) && Ordered(sorted) && multiset(before) == multiset(sorted)
    ensures Increasing(sorted)
  {
    forall i, j | 0 <= i < j < |sorted| ensures Less(sorted[i].sessionId, sorted[j].sessionId) {
      LessIsStrictOrder(sorted[i].sessionId, sorted[j].sessionId, "");
      RearrangedIdsDiffer(before, sorted, i, j);
    }
  }

  /** Two places of a rearrangement cannot hold the same id when ids were distinct before. */
  lemma RearrangedIdsDiffer(before: seq<Route>, sorted: seq<Route>, i: nat, j: nat)
    requires Distinct(before) && multiset(before) == multiset(sorted)
    requires i < j < |sorted|
    ensures sorted[i].sessionId != sorted[j].sessionId
  {
    var r, t := sorted[i], sorted[j];
    assert r in multiset(before) && t in multiset(before);
    var p :| 0 <= p < |before| && before[p] == r;
    var q :| 0 <= q < |before| && before[q] == t;
    assert sorted == sorted[..j] + [t] + sorted[j + 1..];
    assert r == sorted[..j][i];
    assert r == t ==> multiset(sorted)[r] >= 2;
    DistinctOnce(before, r);
  }

  lemma {:induction false} DistinctOnce(list: seq<Route>, r: Route)
    requires Distinct(list)
    ensures multiset(list)[r] <= 1
  {
    if list != [] {
      var init, last := list[..|list| - 1], list[|list| - 1];
      DistinctOnce(init, r);
      assert list == init + [last];
      if last == r {
        assert r !in init;
      }
    }
  }

  /** A set of routes has only one increasing enumeration, so the configuration served to
      Traefik does not depend on Go's map order. */
  lemma {:induction false} EnumerationIsUnique(xs: seq<Route>, ys: seq<Route>)
    requires Increasing(xs) && Increasing(ys)
    requires forall r :: r in xs <==> r in ys
    ensures xs == ys
  {
    assert ys == [] || ys[0] in ys;
    if xs != [] {
      assert xs[0] in ys;
      assert ys[0] in xs;
      var i :| 0 <= i < |ys| && ys[i] == xs[0];
      var j :| 0 <= j < |xs| && xs[j] == ys[0];
      LessIsStrictOrder(xs[0].sessionId, ys[0].sessionId, xs[0].sessionId);
      assert xs[0] == ys[0];
      forall r ensures r in xs[1..] <==> r in ys[1..] {
        TailMembers(xs, r);
        TailMembers(ys, r);
      }
      EnumerationIsUnique(xs[1..], ys[1..]);
      assert xs == [xs[0]] + xs[1..] && ys == [ys[0]] + ys[1..];
    }
  }

  lemma TailMembers(xs: seq<Route>, r: Route)
    requires Increasing(xs) && xs != []
    ensures r in xs[1..] <==> r in xs && r != xs[0]
  {
    assert xs == [xs[0]] + xs[1..];
    LessIsStrictOrder(xs[0].sessionId, xs[0].sessionId, "");
  }

  // From a demo host back to the Session id.

  function SessionIdFromHost(domain: string, host: string): string
  {
    var bare := match SplitHostPort(host) case Some(hp) => hp.host case None => host;
    var lower := Lower(bare);
    var suffix := ".run." + domain;
    if !HasSuffix(lower, suffix) then ""
    else
      var rest := lower[..|lower| - |suffix|];
      if !HasPrefix(rest, "s-") then "" else rest[2..]
  }

  /** The alphabet NewSessionID draws from. */
  predicate IdChar(c: char) { 'a' <= c <= 'z' || '2' <= c <= '7' }

  predicate SessionId(id: string)
  {
    id != "" && forall i :: 0 <= i < |id| ==> IdChar(id[i])
  }

  /** A minted host, with or without a port, leads back to its id exactly when the
      configured domain is in lower case: the lookup lowers the host but not the domain. */
  lemma HostRoundTrip(domain: string, id: string, port: string)
    requires SessionId(id) && PlainName(domain) && PlainName(port)
    ensures SessionIdFromHost(domain, HostOf(domain, id)) == id <==> Lower(domain) == domain
    ensures SessionIdFromHost(domain, JoinHostPort(HostOf(domain, id), port)) == id <==> Lower(domain) == domain
  {
    var host := HostOf(domain, id);
    PlainHost(domain, id);
    SplitUndoesJoin(host, port);
    BareHostRoundTrip(domain, id);
  }

  lemma PlainHost(domain: string, id: string)
    requires SessionId(id) && PlainName(domain)
    ensures PlainName(HostOf(domain, id)) && SplitHostPort(HostOf(domain, id)).None?
  {
  }

  lemma LowerHost(domain: string, id: string)
    requires SessionId(id)
    ensures Lower(HostOf(domain, id)) == "s-" + id + (".run." + Lower(domain))
  {
    LowerId(id);
    LowerOfFour("s-", id, ".run.", domain);
    assert Lower("s-") == "s-" && Lower(".run.") == ".run.";
  }

  lemma LowerOfFour(a: string, b: string, c: string, d: string)
    ensures Lower(a + b + c + d) == Lower(a) + Lower(b) + (Lower(c) + Lower(d))
  {
    LowerAppend(a + b + c, d);
    LowerAppend(a + b, c);
    LowerAppend(a, b);
    Associates(Lower(a) + Lower(b), Lower(c), Lower(d));
    hide Lower;
  }

  lemma LowerId(id: string)
    requires SessionId(id)
    ensures Lower(id) == id
  {
    forall i | 0 <= i < |id| ensures Lower(id)[i] == id[i] {
      assert IdChar(id[i]);
    }
  }

  lemma BareHostRoundTrip(domain: string, id: string)
    requires SessionId(id) && PlainName(domain)
    ensures SessionIdFromHost(domain, HostOf(domain, id)) == id <==> Lower(domain) == domain
  {
    PlainHost(domain, id);
    LowerHost(domain, id);
    CutHost("s-" + id, ".run." + Lower(domain), ".run." + domain);
    assert ("s-" + id)[2..] == id;
    assert (".run." + Lower(domain))[5..] == Lower(domain) && (".run." + domain)[5..] == domain;
  }

  lemma CutHost(rest: string, tail: string, suffix: string)
    requires |tail| == |suffix|
    ensures HasSuffix(rest + tail, suffix) <==> tail == suffix
    ensures (rest + tail)[..|rest + tail| - |suffix|] == rest
  {
    assert (rest + tail)[|rest + tail| - |suffix|..] == tail;
  }
}
