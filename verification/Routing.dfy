/** The dynamic configuration served to Traefik (internal/proxy/config.go), and what Traefik
    makes of it: of the routers whose rule matches, one of the highest priority serves. */
module Routing {
  import opened Text
  import opened NetAddr
  import opened Registry
  import opened Rules
  import M = Manifest

  datatype Router = Router(rule: string, service: string, priority: nat, entryPoints: seq<string>)

  type Routers = map<string, Router>
  type Services = map<string, string>

  const STATUS_SERVICE := "status"

  function TrimSlashes(prefix: string): (p: string)
    decreases |prefix|
  {
    if prefix != "" && prefix[|prefix| - 1] == '/' then TrimSlashes(prefix[..|prefix| - 1]) else prefix
  }

  function ApiRule(host: string, prefix: string): string { MountRule(host, TrimSlashes(prefix)) }

  predicate OnMount(mount: string, path: string) { path == mount || HasPrefix(path, mount + "/") }

  lemma HostMatches(rendered: string, host: string, path: string)
    requires '`' !in rendered
    ensures Matches(HostRule(rendered), host, path) <==> host == rendered
  {
    HostReadsIff(rendered);
  }

  lemma MountMatches(rendered: string, mount: string, host: string, path: string)
    requires '`' !in rendered && '`' !in mount
    ensures Matches(MountRule(rendered, mount), host, path) <==> host == rendered && OnMount(mount, path)
  {
    MountReadsIff(rendered, mount);
    assert Holds(Or(Path(mount), PathPrefix(mount + "/")), host, path) <==> OnMount(mount, path);
    assert Holds(MountExpr(rendered, mount), host, path) <==> host == rendered && OnMount(mount, path);
  }

  /** The rendered rule of a mount matches on a segment boundary: the mount's segments are the
      path's first segments. */
  lemma MountIsASegmentPrefix(rendered: string, mount: string, host: string, path: string)
    requires '`' !in rendered && '`' !in mount
    ensures Matches(MountRule(rendered, mount), host, path) <==>
              host == rendered && Split(mount, '/') <= Split(path, '/')
  {
    MountMatches(rendered, mount, host, path);
    OnMountIff(mount, path);
  }

  lemma OnMountIff(mount: string, path: string)
    ensures OnMount(mount, path) <==> Split(mount, '/') <= Split(path, '/')
  {
    var ms, ps := Split(mount, '/'), Split(path, '/');
    if HasPrefix(path, mount + "/") {
      var rest := path[|mount| + 1..];
      assert path == mount + ['/'] + rest;
      SplitAppend(mount, rest, '/');
    }
    if ms <= ps {
      JoinSplit(mount, '/');
      JoinSplit(path, '/');
      if |ms| < |ps| {
        assert ps == ms + ps[|ms|..];
        JoinAppend(ms, ps[|ms|..], '/');
      } else {
        assert ps == ms;
      }
    }
  }

  // ---- Keys ----

  function SessionKey(id: string): string { "s-" + id }
  function UiKey(id: string): string { "s-" + id + "-ui" }
  function ApiKey(id: string, i: nat): string { "s-" + id + "-api-" + Decimal(i) }

  predicate BelongsTo(key: string, id: string)
  {
    key == SessionKey(id) || HasPrefix(key, SessionKey(id) + "-")
  }

  /** The part of a key up to its second dash. */
  function OwnerOf(key: string): string
    requires |key| >= 2
  {
    var dash := IndexOf(key[2..], '-');
    if dash < 0 then key[2..] else key[2..][..dash]
  }

  lemma {:induction false} FirstAt(s: string, c: char, n: nat)
    requires n < |s| && s[n] == c && forall i :: 0 <= i < n ==> s[i] != c
    ensures IndexOf(s, c) == n
  {
    if n > 0 {
      FirstAt(s[1..], c, n - 1);
    }
  }

  lemma KeyLeadsBack(key: string, id: string)
    requires SessionId(id) && BelongsTo(key, id)
    ensures |key| >= 2 && OwnerOf(key) == id
  {
    var tail := key[2..];
    assert forall i :: 0 <= i < |id| ==> IdChar(id[i]) && id[i] != '-';
    if key == SessionKey(id) {
      assert tail == id;
    } else {
      assert key[..|id| + 3] == SessionKey(id) + "-";
      assert tail[..|id|] == id && tail[|id|] == '-';
      assert forall i :: 0 <= i < |id| ==> tail[i] == id[i];
      FirstAt(tail, '-', |id|);
    }
  }

  /** A key names one Session: minted ids have no '-'. */
  lemma KeyNamesOneSession(key: string, a: string, b: string)
    requires SessionId(a) && SessionId(b) && BelongsTo(key, a) && BelongsTo(key, b)
    ensures a == b
  {
    KeyLeadsBack(key, a);
    KeyLeadsBack(key, b);
  }

  lemma KeysOf(id: string, i: nat)
    ensures BelongsTo(SessionKey(id), id) && BelongsTo(UiKey(id), id) && BelongsTo(ApiKey(id, i), id)
    ensures UiKey(id) != ApiKey(id, i)
    ensures !BelongsTo(STATUS_SERVICE, id)
  {
    assert UiKey(id) == SessionKey(id) + "-" + "ui";
    assert ApiKey(id, i) == SessionKey(id) + "-" + ("api-" + Decimal(i));
    assert UiKey(id)[|id| + 3] == 'u' && ApiKey(id, i)[|id| + 3] == 'a';
    assert STATUS_SERVICE[1] == 't' && (SessionKey(id) + "-")[1] == '-' && SessionKey(id)[1] == '-';
  }

  lemma ApiKeysDiffer(id: string, i: nat, j: nat)
    requires ApiKey(id, i) == ApiKey(id, j)
    ensures i == j
  {
    var n := |"s-" + id + "-api-"|;
    assert ApiKey(id, i)[n..] == Decimal(i) && ApiKey(id, j)[n..] == Decimal(j);
    DecimalInjective(i, j);
  }

  // ---- What each Session contributes ----

  function Entry(entryPoint: string): seq<string> { if entryPoint != "" then [entryPoint] else [] }

  function ApiRouter(rt: Route, ep: string, i: nat): Router
    requires i < |rt.apis|
  {
    Router(ApiRule(rt.host, rt.apis[i].pathPrefix), ApiKey(rt.sessionId, i), 100, Entry(ep))
  }

  function ApiRouters(rt: Route, ep: string, n: nat): Routers
    requires n <= |rt.apis|
  {
    if n == 0 then map[] else ApiRouters(rt, ep, n - 1)[ApiKey(rt.sessionId, n - 1) := ApiRouter(rt, ep, n - 1)]
  }

  function ApiServices(rt: Route, n: nat): Services
    requires n <= |rt.apis|
  {
    if n == 0 then map[] else ApiServices(rt, n - 1)[ApiKey(rt.sessionId, n - 1) := rt.apis[n - 1].url]
  }

  function UiRouter(rt: Route, ep: string): Router { Router(HostRule(rt.host), UiKey(rt.sessionId), 1, Entry(ep)) }

  function StatusRouter(rt: Route, ep: string): Router { Router(HostRule(rt.host), STATUS_SERVICE, 1, Entry(ep)) }

  function SessionRouters(rt: Route, ep: string): Routers
  {
    if rt.state != Live then map[SessionKey(rt.sessionId) := StatusRouter(rt, ep)]
    else ApiRouters(rt, ep, |rt.apis|)[UiKey(rt.sessionId) := UiRouter(rt, ep)]
  }

  function SessionServices(rt: Route): Services
  {
    if rt.state != Live then map[]
    else ApiServices(rt, |rt.apis|)[UiKey(rt.sessionId) := rt.ui.url]
  }

  function RoutersOf(list: seq<Route>, ep: string): Routers
  {
    if list == [] then map[] else RoutersOf(list[..|list| - 1], ep) + SessionRouters(list[|list| - 1], ep)
  }

  function ServicesOf(list: seq<Route>): Services
  {
    if list == [] then map[] else ServicesOf(list[..|list| - 1]) + SessionServices(list[|list| - 1])
  }

  predicate AnyStatus(list: seq<Route>) { exists i :: 0 <= i < |list| && list[i].state != Live }

  lemma AddThenPut<T>(m: map<string, T>, n: map<string, T>, k: string, v: T)
    ensures m + n[k := v] == (m + n)[k := v]
  {
  }

  method BuildLive(rt: Route, entryPoint: string, routers: Routers, services: Services)
    returns (routers': Routers, services': Services)
    requires rt.state == Live
    ensures routers' == routers + SessionRouters(rt, entryPoint)
    ensures services' == services + SessionServices(rt)
  {
    routers', services' := routers, services;
    for j := 0 to |rt.apis|
      invariant routers' == routers + ApiRouters(rt, entryPoint, j)
      invariant services' == services + ApiServices(rt, j)
    {
      var name := ApiKey(rt.sessionId, j);
      AddThenPut(routers, ApiRouters(rt, entryPoint, j), name, ApiRouter(rt, entryPoint, j));
      AddThenPut(services, ApiServices(rt, j), name, rt.apis[j].url);
      routers' := routers'[name := Router(ApiRule(rt.host, rt.apis[j].pathPrefix), name, 100, Entry(entryPoint))];
      services' := services'[name := rt.apis[j].url];
    }
    var uiName := UiKey(rt.sessionId);
    AddThenPut(routers, ApiRouters(rt, entryPoint, |rt.apis|), uiName, UiRouter(rt, entryPoint));
    AddThenPut(services, ApiServices(rt, |rt.apis|), uiName, rt.ui.url);
    routers' := routers'[uiName := Router(HostRule(rt.host), uiName, 1, Entry(entryPoint))];
    services' := services'[uiName := rt.ui.url];
  }

  lemma NonLiveAdds(rt: Route, ep: string, routers: Routers, services: Services)
    requires rt.state != Live
    ensures routers + SessionRouters(rt, ep) == routers[SessionKey(rt.sessionId) := StatusRouter(rt, ep)]
    ensures services + SessionServices(rt) == services
  {
  }

  lemma NoPrefix(list: seq<Route>, ep: string)
    ensures RoutersOf(list[..0], ep) == map[] && ServicesOf(list[..0]) == map[] && !AnyStatus(list[..0])
  {
  }

  lemma PrefixNext(list: seq<Route>, i: nat, ep: string)
    requires i < |list|
    ensures RoutersOf(list[..i + 1], ep) == RoutersOf(list[..i], ep) + SessionRouters(list[i], ep)
    ensures ServicesOf(list[..i + 1]) == ServicesOf(list[..i]) + SessionServices(list[i])
    ensures AnyStatus(list[..i + 1]) <==> AnyStatus(list[..i]) || list[i].state != Live
  {
    assert list[..i + 1][..i] == list[..i] && list[..i + 1][i] == list[i];
    assert forall k :: 0 <= k < i ==> list[..i][k] == list[..i + 1][k];
  }

  method Build(snapshot: seq<Route>, bootingUrl: string, entryPoint: string)
    returns (routers: Routers, services: Services)
    ensures routers == RoutersOf(snapshot, entryPoint)
    ensures services == if AnyStatus(snapshot) then ServicesOf(snapshot)[STATUS_SERVICE := bootingUrl]
            else ServicesOf(snapshot)
  {
    routers, services := map[], map[];
    var anyStatus := false;
    NoPrefix(snapshot, entryPoint);
    for i := 0 to |snapshot|
      invariant routers == RoutersOf(snapshot[..i], entryPoint) && services == ServicesOf(snapshot[..i])
      invariant anyStatus == AnyStatus(snapshot[..i])
    {
      var rt := snapshot[i];
      PrefixNext(snapshot, i, entryPoint);
      if rt.state != Live {
        NonLiveAdds(rt, entryPoint, routers, services);
        routers := routers[SessionKey(rt.sessionId) := Router(HostRule(rt.host), STATUS_SERVICE, 1, Entry(entryPoint))];
        anyStatus := true;
        continue;
      }
      routers, services := BuildLive(rt, entryPoint, routers, services);
    }
    assert snapshot[..|snapshot|] == snapshot;
    if anyStatus {
      services := services[STATUS_SERVICE := bootingUrl];
    }
  }

  // ---- No entry is lost ----

  lemma {:induction false} ApiEntry(rt: Route, ep: string, n: nat, i: nat)
    requires i < n <= |rt.apis|
    ensures var k := ApiKey(rt.sessionId, i);
            && k in ApiRouters(rt, ep, n) && ApiRouters(rt, ep, n)[k] == ApiRouter(rt, ep, i)
            && k in ApiServices(rt, n) && ApiServices(rt, n)[k] == rt.apis[i].url
  {
    hide ApiKey, ApiRouter;
    if i < n - 1 {
      ApiEntry(rt, ep, n - 1, i);
      if ApiKey(rt.sessionId, i) == ApiKey(rt.sessionId, n - 1) {
        ApiKeysDiffer(rt.sessionId, i, n - 1);
      }
    }
  }

  lemma {:induction false} ApiKeysAre(rt: Route, ep: string, n: nat)
    requires n <= |rt.apis|
    ensures forall k :: k in ApiRouters(rt, ep, n) ==> exists i :: 0 <= i < n && k == ApiKey(rt.sessionId, i)
    ensures ApiServices(rt, n).Keys == ApiRouters(rt, ep, n).Keys
  {
    hide ApiKey, ApiRouter;
    if n > 0 {
      ApiKeysAre(rt, ep, n - 1);
    }
  }

  lemma ApiEntries(rt: Route, ep: string, n: nat)
    requires n <= |rt.apis|
    ensures forall k :: k in ApiRouters(rt, ep, n) ==> exists i :: 0 <= i < n && k == ApiKey(rt.sessionId, i)
    ensures forall i :: 0 <= i < n ==>
              && ApiKey(rt.sessionId, i) in ApiRouters(rt, ep, n)
              && ApiRouters(rt, ep, n)[ApiKey(rt.sessionId, i)] == ApiRouter(rt, ep, i)
              && ApiKey(rt.sessionId, i) in ApiServices(rt, n)
              && ApiServices(rt, n)[ApiKey(rt.sessionId, i)] == rt.apis[i].url
    ensures ApiServices(rt, n).Keys == ApiRouters(rt, ep, n).Keys
  {
    ApiKeysAre(rt, ep, n);
    forall i | 0 <= i < n
      ensures var k := ApiKey(rt.sessionId, i);
              && k in ApiRouters(rt, ep, n) && ApiRouters(rt, ep, n)[k] == ApiRouter(rt, ep, i)
              && k in ApiServices(rt, n) && ApiServices(rt, n)[k] == rt.apis[i].url
    {
      ApiEntry(rt, ep, n, i);
    }
  }

  lemma SessionKeysBelong(rt: Route, ep: string)
    ensures forall k :: k in SessionRouters(rt, ep) ==> BelongsTo(k, rt.sessionId)
    ensures forall k :: k in SessionServices(rt) ==> BelongsTo(k, rt.sessionId)
  {
    ApiEntries(rt, ep, |rt.apis|);
    forall i: nat ensures BelongsTo(ApiKey(rt.sessionId, i), rt.sessionId) { KeysOf(rt.sessionId, i); }
    KeysOf(rt.sessionId, 0);
  }

  ghost predicate MintedSnapshot(domain: string, list: seq<Route>)
  {
    && (forall i :: 0 <= i < |list| ==>
        SessionId(list[i].sessionId) && list[i].host == HostOf(domain, list[i].sessionId))
    && forall i, j :: 0 <= i < j < |list| ==> list[i].sessionId != list[j].sessionId
  }

  lemma SessionsApart(a: Route, b: Route, ep: string)
    requires SessionId(a.sessionId) && SessionId(b.sessionId) && a.sessionId != b.sessionId
    ensures SessionRouters(a, ep).Keys !! SessionRouters(b, ep).Keys
    ensures SessionServices(a).Keys !! SessionServices(b).Keys
  {
    SessionKeysBelong(a, ep);
    SessionKeysBelong(b, ep);
    forall k ensures !(BelongsTo(k, a.sessionId) && BelongsTo(k, b.sessionId)) {
      if BelongsTo(k, a.sessionId) && BelongsTo(k, b.sessionId) {
        KeyNamesOneSession(k, a.sessionId, b.sessionId);
      }
    }
  }

  /** For distinct minted ids no two Sessions write the same key: each one's routers and
      services stand unchanged in the whole. */
  lemma {:induction false} NothingIsOverwritten(domain: string, list: seq<Route>, ep: string, i: nat)
    requires MintedSnapshot(domain, list) && i < |list|
    ensures SessionRouters(list[i], ep).Items <= RoutersOf(list, ep).Items
    ensures SessionServices(list[i]).Items <= ServicesOf(list).Items
  {
    var init, last := list[..|list| - 1], list[|list| - 1];
    if i < |init| {
      NothingIsOverwritten(domain, init, ep, i);
      assert init[i] == list[i];
      SessionsApart(list[i], last, ep);
      ItemsSurvive(SessionRouters(list[i], ep), RoutersOf(init, ep), SessionRouters(last, ep));
      ItemsSurvive(SessionServices(list[i]), ServicesOf(init), SessionServices(last));
    } else {
      ItemsWin(RoutersOf(init, ep), SessionRouters(last, ep));
      ItemsWin(ServicesOf(init), SessionServices(last));
    }
  }

  lemma ItemsSurvive<T>(part: map<string, T>, whole: map<string, T>, added: map<string, T>)
    requires part.Items <= whole.Items && part.Keys !! added.Keys
    ensures part.Items <= (whole + added).Items
  {
    forall kv | kv in part.Items ensures kv in (whole + added).Items {
      assert kv in whole.Items && kv.0 in part.Keys;
    }
  }

  lemma ItemsWin<T>(whole: map<string, T>, added: map<string, T>)
    ensures added.Items <= (whole + added).Items
  {
  }

  lemma Entries<T>(part: map<string, T>, whole: map<string, T>, k: string)
    requires part.Items <= whole.Items && k in part
    ensures k in whole && whole[k] == part[k]
  {
    assert (k, part[k]) in part.Items;
  }

  /** And the whole has nothing else: every router is some Session's. */
  lemma {:induction false} RouterHasOwner(list: seq<Route>, ep: string, k: string) returns (i: nat)
    requires k in RoutersOf(list, ep)
    ensures i < |list| && k in SessionRouters(list[i], ep) && SessionRouters(list[i], ep)[k] == RoutersOf(list, ep)[k]
  {
    var last := list[|list| - 1];
    if k in SessionRouters(last, ep) {
      i := |list| - 1;
    } else {
      i := RouterHasOwner(list[..|list| - 1], ep, k);
    }
  }

  // ---- Which service answers ----

  /** k is a router Traefik may pick for the request. */
  ghost predicate Serves(routers: Routers, host: string, path: string, k: string)
  {
    && k in routers && Matches(routers[k].rule, host, path)
    && forall o :: o in routers && Matches(routers[o].rule, host, path) ==> routers[o].priority <= routers[k].priority
  }

  lemma HostsDiffer(domain: string, a: string, b: string)
    requires HostOf(domain, a) == HostOf(domain, b)
    ensures a == b
  {
    assert |a| == |b|;
    assert HostOf(domain, a)[2..2 + |a|] == a && HostOf(domain, b)[2..2 + |b|] == b;
  }

  /** No text that goes into a rule holds a backquote: not the domain, nor a live API's prefix. */
  ghost predicate Unquoted(domain: string, list: seq<Route>)
  {
    '`' !in domain && forall i :: 0 <= i < |list| ==> UnquotedRoute(list[i])
  }

  ghost predicate UnquotedRoute(rt: Route)
  {
    rt.state == Live ==> forall j :: 0 <= j < |rt.apis| ==> '`' !in rt.apis[j].pathPrefix
  }

  lemma {:induction false} TrimmedIsPart(prefix: string)
    ensures TrimSlashes(prefix) <= prefix
    decreases |prefix|
  {
    if prefix != "" && prefix[|prefix| - 1] == '/' {
      TrimmedIsPart(prefix[..|prefix| - 1]);
    }
  }

  /** What is trimmed is the slashes at the end, all of them and nothing else. */
  lemma {:induction false} TrimmedIs(prefix: string)
    ensures var p := TrimSlashes(prefix);
            p <= prefix && !HasSuffix(p, "/") && forall i :: |p| <= i < |prefix| ==> prefix[i] == '/'
    decreases |prefix|
  {
    if prefix != "" && prefix[|prefix| - 1] == '/' {
      var rest := prefix[..|prefix| - 1];
      TrimmedIs(rest);
      assert forall i :: 0 <= i < |rest| ==> prefix[i] == rest[i];
    }
  }

  /** A declared prefix, with a slash at the end or without, mounts the same path. */
  lemma SlashMakesNoDifference(host: string, mount: string)
    requires !HasSuffix(mount, "/")
    ensures ApiRule(host, mount) == ApiRule(host, mount + "/") == MountRule(host, mount)
  {
    assert (mount + "/")[..|mount|] == mount;
  }

  /** Every router listens where the configuration says, and an API's goes before the others. */
  lemma RoutersListen(list: seq<Route>, ep: string, k: string)
    requires k in RoutersOf(list, ep)
    ensures RoutersOf(list, ep)[k].entryPoints == if ep == "" then [] else [ep]
    ensures RoutersOf(list, ep)[k].priority == 1 || RoutersOf(list, ep)[k].priority == 100
  {
    var i := RouterHasOwner(list, ep, k);
    ApiEntries(list[i], ep, |list[i].apis|);
  }

  lemma HostIsUnquoted(domain: string, id: string)
    requires '`' !in domain && SessionId(id)
    ensures '`' !in HostOf(domain, id)
  {
    assert forall i :: 0 <= i < |id| ==> IdChar(id[i]) && id[i] != '`';
  }

  /** Of the routers of a Session, none matches another host. */
  lemma RouterBearsHost(rt: Route, ep: string, k: string, host: string, path: string)
    requires '`' !in rt.host && UnquotedRoute(rt)
    requires k in SessionRouters(rt, ep) && Matches(SessionRouters(rt, ep)[k].rule, host, path)
    ensures host == rt.host
  {
    ApiEntries(rt, ep, |rt.apis|);
    HostMatches(rt.host, host, path);
    hide Matches, HostRule, MountRule, ApiKey, UiKey, SessionKey;
    if rt.state == Live && SessionRouters(rt, ep)[k] != UiRouter(rt, ep) {
      var j :| 0 <= j < |rt.apis| && k == ApiKey(rt.sessionId, j);
      TrimmedIsPart(rt.apis[j].pathPrefix);
      MountMatches(rt.host, TrimSlashes(rt.apis[j].pathPrefix), host, path);
    }
  }

  /** Only a Session's own routers match its host. */
  lemma MatchIsOwn(domain: string, list: seq<Route>, ep: string, i: nat, path: string, k: string)
    requires MintedSnapshot(domain, list) && Unquoted(domain, list) && i < |list|
    requires k in RoutersOf(list, ep) && Matches(RoutersOf(list, ep)[k].rule, list[i].host, path)
    ensures k in SessionRouters(list[i], ep) && SessionRouters(list[i], ep)[k] == RoutersOf(list, ep)[k]
  {
    hide Matches;
    var j := RouterHasOwner(list, ep, k);
    HostIsUnquoted(domain, list[j].sessionId);
    RouterBearsHost(list[j], ep, k, list[i].host, path);
    HostsDiffer(domain, list[i].sessionId, list[j].sessionId);
    assert i == j;
  }

  /** Every non-live Session is answered by the status service, whatever the path. */
  lemma NonLiveIsStatus(domain: string, list: seq<Route>, ep: string, i: nat, path: string, k: string)
    requires MintedSnapshot(domain, list) && Unquoted(domain, list) && i < |list| && list[i].state != Live
    ensures Serves(RoutersOf(list, ep), list[i].host, path, k) <==> k == SessionKey(list[i].sessionId)
    ensures SessionKey(list[i].sessionId) in RoutersOf(list, ep)
    ensures RoutersOf(list, ep)[SessionKey(list[i].sessionId)].service == STATUS_SERVICE
  {
    var own := SessionKey(list[i].sessionId);
    NothingIsOverwritten(domain, list, ep, i);
    Entries(SessionRouters(list[i], ep), RoutersOf(list, ep), own);
    HostIsUnquoted(domain, list[i].sessionId);
    HostMatches(list[i].host, list[i].host, path);
    hide Matches, HostRule;
    forall o | o in RoutersOf(list, ep) && Matches(RoutersOf(list, ep)[o].rule, list[i].host, path)
      ensures o == own
    {
      MatchIsOwn(domain, list, ep, i, path, o);
    }
  }

  function Mounted(rt: Route, path: string): set<nat>
  {
    set j: nat | j < |rt.apis| && OnMount(TrimSlashes(rt.apis[j].pathPrefix), path)
  }

  lemma LiveEntries(rt: Route, ep: string)
    requires rt.state == Live
    ensures var routers, services, id := SessionRouters(rt, ep), SessionServices(rt), rt.sessionId;
            && UiKey(id) in routers && routers[UiKey(id)] == UiRouter(rt, ep)
            && UiKey(id) in services && services[UiKey(id)] == rt.ui.url
            && (forall j :: 0 <= j < |rt.apis| ==>
                  && ApiKey(id, j) in routers && routers[ApiKey(id, j)] == ApiRouter(rt, ep, j)
                  && ApiKey(id, j) in services && services[ApiKey(id, j)] == rt.apis[j].url)
            && (forall k :: k in routers && k != UiKey(id) ==> exists j :: 0 <= j < |rt.apis| && k == ApiKey(id, j))
  {
    ApiEntries(rt, ep, |rt.apis|);
    forall j: nat ensures ApiKey(rt.sessionId, j) != UiKey(rt.sessionId) { KeysOf(rt.sessionId, j); }
  }

  lemma MountedIff(domain: string, rt: Route, j: nat, path: string)
    requires '`' !in domain && SessionId(rt.sessionId) && rt.host == HostOf(domain, rt.sessionId)
    requires j < |rt.apis| && '`' !in rt.apis[j].pathPrefix
    ensures Matches(ApiRule(rt.host, rt.apis[j].pathPrefix), rt.host, path) <==> j in Mounted(rt, path)
  {
    HostIsUnquoted(domain, rt.sessionId);
    TrimmedIsPart(rt.apis[j].pathPrefix);
    MountMatches(rt.host, TrimSlashes(rt.apis[j].pathPrefix), rt.host, path);
  }

  /** The routers that match a Live Session's host and path: its UI, and its mounted APIs. */
  lemma LiveMatches(domain: string, list: seq<Route>, ep: string, i: nat, path: string, k: string)
    requires MintedSnapshot(domain, list) && Unquoted(domain, list) && i < |list| && list[i].state == Live
    requires k in RoutersOf(list, ep) && Matches(RoutersOf(list, ep)[k].rule, list[i].host, path)
    ensures var rt := list[i];
            || (k == UiKey(rt.sessionId) && RoutersOf(list, ep)[k] == UiRouter(rt, ep))
            || exists j ::
                 && j in Mounted(rt, path) && k == ApiKey(rt.sessionId, j)
                 && RoutersOf(list, ep)[k] == ApiRouter(rt, ep, j)
  {
    var rt := list[i];
    MatchIsOwn(domain, list, ep, i, path, k);
    LiveEntries(rt, ep);
    hide Matches, MountRule;
    if k != UiKey(rt.sessionId) {
      var j: nat :| j < |rt.apis| && k == ApiKey(rt.sessionId, j);
      MountedIff(domain, rt, j, path);
      assert j in Mounted(rt, path);
    }
  }

  /** An API router of a Live Session is there with its own rule and address. */
  lemma ApiIsThere(domain: string, list: seq<Route>, ep: string, i: nat, j: nat)
    requires MintedSnapshot(domain, list) && i < |list| && list[i].state == Live && j < |list[i].apis|
    ensures var k := ApiKey(list[i].sessionId, j);
            && k in RoutersOf(list, ep) && RoutersOf(list, ep)[k] == ApiRouter(list[i], ep, j)
            && k in ServicesOf(list) && ServicesOf(list)[k] == list[i].apis[j].url
  {
    var k := ApiKey(list[i].sessionId, j);
    LiveEntries(list[i], ep);
    NothingIsOverwritten(domain, list, ep, i);
    Entries(SessionRouters(list[i], ep), RoutersOf(list, ep), k);
    Entries(SessionServices(list[i]), ServicesOf(list), k);
  }

  lemma UiIsThere(domain: string, list: seq<Route>, ep: string, i: nat)
    requires MintedSnapshot(domain, list) && i < |list| && list[i].state == Live
    ensures var k := UiKey(list[i].sessionId);
            && k in RoutersOf(list, ep) && RoutersOf(list, ep)[k] == UiRouter(list[i], ep)
            && k in ServicesOf(list) && ServicesOf(list)[k] == list[i].ui.url
  {
    var k := UiKey(list[i].sessionId);
    LiveEntries(list[i], ep);
    NothingIsOverwritten(domain, list, ep, i);
    Entries(SessionRouters(list[i], ep), RoutersOf(list, ep), k);
    Entries(SessionServices(list[i]), ServicesOf(list), k);
  }

  /** The router passes what it answers on to this address. */
  ghost predicate LeadsTo(list: seq<Route>, ep: string, k: string, url: string)
  {
    && k in RoutersOf(list, ep) && RoutersOf(list, ep)[k].service in ServicesOf(list)
    && ServicesOf(list)[RoutersOf(list, ep)[k].service] == url
  }

  /** A Live Session's path is answered by an API whose mount matches, when there is one, and
      by the UI otherwise; the answering router leads to that backend's address. */
  lemma LiveIsServed(domain: string, list: seq<Route>, ep: string, i: nat, path: string, k: string)
    requires MintedSnapshot(domain, list) && Unquoted(domain, list) && i < |list| && list[i].state == Live
    ensures Serves(RoutersOf(list, ep), list[i].host, path, k) <==>
              if Mounted(list[i], path) == {} then k == UiKey(list[i].sessionId)
              else exists j :: j in Mounted(list[i], path) && k == ApiKey(list[i].sessionId, j)
    ensures LeadsTo(list, ep, UiKey(list[i].sessionId), list[i].ui.url)
    ensures forall j :: j in Mounted(list[i], path) ==>
              LeadsTo(list, ep, ApiKey(list[i].sessionId, j), list[i].apis[j].url)
  {
    var rt, routers := list[i], RoutersOf(list, ep);
    UiIsThere(domain, list, ep, i);
    HostIsUnquoted(domain, rt.sessionId);
    HostMatches(rt.host, rt.host, path);
    hide Matches, HostRule, MountRule;
    forall j | j in Mounted(rt, path)
      ensures Matches(ApiRule(rt.host, rt.apis[j].pathPrefix), rt.host, path)
      ensures ApiKey(rt.sessionId, j) in routers && routers[ApiKey(rt.sessionId, j)] == ApiRouter(rt, ep, j)
      ensures LeadsTo(list, ep, ApiKey(rt.sessionId, j), rt.apis[j].url)
    {
      ApiIsThere(domain, list, ep, i, j);
      MountedIff(domain, rt, j, path);
    }
    forall o | o in routers && Matches(routers[o].rule, rt.host, path)
      ensures (o == UiKey(rt.sessionId) && routers[o].priority == 1)
           || (exists j :: j in Mounted(rt, path) && o == ApiKey(rt.sessionId, j) && routers[o].priority == 100)
    {
      LiveMatches(domain, list, ep, i, path, o);
    }
  }

  /** No router answers a host that is no Session's. */
  lemma StrangersAreUnanswered(domain: string, list: seq<Route>, ep: string, host: string, path: string, k: string)
    requires MintedSnapshot(domain, list) && Unquoted(domain, list)
    requires forall i :: 0 <= i < |list| ==> list[i].host != host
    ensures !Serves(RoutersOf(list, ep), host, path, k)
  {
    hide Matches;
    if k in RoutersOf(list, ep) && Matches(RoutersOf(list, ep)[k].rule, host, path) {
      var j := RouterHasOwner(list, ep, k);
      HostIsUnquoted(domain, list[j].sessionId);
      RouterBearsHost(list[j], ep, k, host, path);
    }
  }

  // ---- A prefix with backquotes ----

  /** A prefix whose rule names another host besides. */
  function Quoted(other: string): string { "/x`)) || (Host(`" + other }

  /** The run contract accepts it, as it does any rooted prefix that no other service has. */
  lemma QuotedIsAccepted(m: M.Manifest, i: nat, other: string)
    requires M.Contract(m) && i < |m.services| && m.services[i].role == M.API
    requires forall j :: 0 <= j < |m.services| ==> m.services[j].pathPrefix != Quoted(other)
    ensures var edited := m.(services := m.services[i := m.services[i].(pathPrefix := Quoted(other))]);
            forall p :: !M.Broken(edited, p)
  {
    M.AnyRootedPrefixIsFree(m, i, Quoted(other));
    M.ValidIffContract(m.(services := m.services[i := m.services[i].(pathPrefix := Quoted(other))]));
  }

  /** So for any live API and any other host, be it a Session's in whatever state or nobody's,
      there is such a prefix: the API's router answers that host on every path. */
  lemma QuotedTakesOther(domain: string, list: seq<Route>, ep: string, i: nat, j: nat, other: string, path: string)
    requires MintedSnapshot(domain, list) && '`' !in domain && i < |list| && list[i].state == Live
    requires '`' !in other && !HasSuffix(other, "/")
    requires j < |list[i].apis| && list[i].apis[j].pathPrefix == Quoted(other)
    ensures Serves(RoutersOf(list, ep), other, path, ApiKey(list[i].sessionId, j))
    ensures LeadsTo(list, ep, ApiKey(list[i].sessionId, j), list[i].apis[j].url)
  {
    ApiIsThere(domain, list, ep, i, j);
    HostIsUnquoted(domain, list[i].sessionId);
    QuotedMatchesOther(list[i].host, other, path);
    assert TrimSlashes(Quoted(other)) == Quoted(other);
    hide Matches, MountRule, Quoted;
    forall k | k in RoutersOf(list, ep) ensures RoutersOf(list, ep)[k].priority <= 100 {
      var owner := RouterHasOwner(list, ep, k);
      PriorityIsLow(list[owner], ep, k);
    }
  }

  lemma PriorityIsLow(rt: Route, ep: string, k: string)
    requires k in SessionRouters(rt, ep)
    ensures SessionRouters(rt, ep)[k].priority <= 100
  {
    ApiEntries(rt, ep, |rt.apis|);
  }

  /** Its rule matches that host on every path. */
  lemma QuotedMatchesOther(host: string, other: string, path: string)
    requires '`' !in host && '`' !in other
    ensures Matches(MountRule(host, Quoted(other)), other, path)
  {
    QuotedReads(host, other);
    assert Holds(Or(Host(other), PathPrefix("/x")), other, path);
    assert Holds(Or(Or(Host(other), PathPrefix("/x")), Host(other + "/")), other, path);
  }

  lemma QuotedReads(host: string, other: string)
    requires '`' !in host && '`' !in other
    ensures Read(MountRule(host, Quoted(other)))
         == Some(Or(And(Host(host), Path("/x")), Or(Or(Host(other), PathPrefix("/x")), Host(other + "/"))))
  {
    var ts := QuotedTokens(host, other);
    QuotedIsWritten(host, other);
    QuotedParses(host, other);
    assert Plain(ts) by { QuotedIsPlain(host, other); }
    LexWritten(ts);
  }

  function QuotedEnd(other: string): seq<Token> { [Open] + Call(HostHead, other + "/") + [Close] }

  function QuotedMiddle(other: string): seq<Token>
  {
    [Open] + Call(HostHead, other) + [OrSign] + Call(PrefixHead, "/x") + [Close] + ([OrSign] + QuotedEnd(other))
  }

  function QuotedTokens(host: string, other: string): seq<Token>
  {
    Call(HostHead, host) + ([AndSign] + ([Open] + Call(PathHead, "/x") + [Close] + ([OrSign] + QuotedMiddle(other))))
  }

  lemma QuotedIsPlain(host: string, other: string)
    requires '`' !in host && '`' !in other
    ensures Plain(QuotedTokens(host, other))
  {
    var either := [Open] + Call(HostHead, other) + [OrSign] + Call(PrefixHead, "/x") + [Close];
    PlainAppend(either, [OrSign] + QuotedEnd(other));
    PlainAppend([OrSign], QuotedEnd(other));
    var path, middle := [Open] + Call(PathHead, "/x") + [Close], [OrSign] + QuotedMiddle(other);
    PlainAppend([OrSign], QuotedMiddle(other));
    PlainAppend(path, middle);
    PlainAppend([AndSign], path + middle);
    PlainAppend(Call(HostHead, host), [AndSign] + (path + middle));
    assert Plain(either) && Plain(QuotedEnd(other)) && Plain(path) && Plain(Call(HostHead, host));
  }

  lemma QuotedIsWritten(host: string, other: string)
    ensures Written(QuotedTokens(host, other)) == MountRule(host, Quoted(other))
  {
    var path, middle := Call(PathHead, "/x"), [OrSign] + QuotedMiddle(other);
    WrittenMiddle(other);
    WrittenAppend([OrSign], QuotedMiddle(other));
    WrittenAppend([Open] + path + [Close], middle);
    WrittenAppend([Open] + path, [Close]);
    WrittenAppend([Open], path);
    WrittenAppend([AndSign], [Open] + path + [Close] + middle);
    WrittenAppend(Call(HostHead, host), [AndSign] + ([Open] + path + [Close] + middle));
    WrittenCall(HostHead, host);
    WrittenCall(PathHead, "/x");
    WrittenOne(Open);
    WrittenOne(Close);
    WrittenOne(OrSign);
    WrittenOne(AndSign);
    hide Written, Call, QuotedMiddle;
    var rest := "(Host(`" + other + "`) || PathPrefix(`/x`)) || " + "(Host(`" + other + "/`))";
    assert Written(QuotedTokens(host, other)) == HostRule(host) + " && " + ("(Path(`/x`)) || " + rest);
    assert "(Path(`/x`)) || " + rest == PathRule(Quoted(other)) by { QuotedText(other, rest); }
  }

  lemma QuotedText(other: string, rest: string)
    requires rest == "(Host(`" + other + "`) || PathPrefix(`/x`)) || " + "(Host(`" + other + "/`))"
    ensures PathRule(Quoted(other)) == "(Path(`/x`)) || " + rest
  {
    var a, x, j, k, p, e := "(Path(`", "/x", "`)) || ", "(Host(`", "`) || PathPrefix(`", "/`))";
    assert Quoted(other) == x + (j + k) + other by { assert "/x`)) || (Host(`" == x + (j + k); }
    assert PathRule(Quoted(other)) == a + Quoted(other) + p + Quoted(other) + e;
    assert "(Path(`/x`)) || " == a + x + j && "`) || PathPrefix(`/x`)) || " == p + x + j;
    Regroup(a, x, j, k, other, p, e);
  }

  lemma Regroup(a: string, x: string, j: string, k: string, o: string, p: string, e: string)
    ensures a + (x + (j + k) + o) + p + (x + (j + k) + o) + e == a + x + j + (k + o + (p + x + j) + (k + o + e))
  {
    assert a + (x + (j + k) + o) == a + x + j + (k + o);
    assert p + (x + (j + k) + o) == p + x + j + (k + o);
    assert (k + o) + e == k + o + e;
  }

  lemma WrittenEnd(other: string)
    ensures Written(QuotedEnd(other)) == "(Host(`" + other + "/`))"
  {
    WrittenAppend([Open] + Call(HostHead, other + "/"), [Close]);
    WrittenAppend([Open], Call(HostHead, other + "/"));
    WrittenCall(HostHead, other + "/");
    WrittenOne(Open);
    WrittenOne(Close);
    hide Written, Call;
  }

  lemma WrittenMiddle(other: string)
    ensures Written(QuotedMiddle(other))
         == "(Host(`" + other + "`) || PathPrefix(`/x`)) || " + "(Host(`" + other + "/`))"
  {
    var host, prefix := Call(HostHead, other), Call(PrefixHead, "/x");
    WrittenAppend([Open] + host + [OrSign] + prefix + [Close], [OrSign] + QuotedEnd(other));
    WrittenAppend([OrSign], QuotedEnd(other));
    WrittenAppend([Open] + host + [OrSign] + prefix, [Close]);
    WrittenAppend([Open] + host + [OrSign], prefix);
    WrittenAppend([Open] + host, [OrSign]);
    WrittenAppend([Open], host);
    WrittenCall(HostHead, other);
    WrittenCall(PrefixHead, "/x");
    WrittenEnd(other);
    WrittenOne(Open);
    WrittenOne(Close);
    WrittenOne(OrSign);
    hide Written, Call, QuotedEnd;
  }

  lemma QuotedParses(host: string, other: string)
    ensures ParseOr(QuotedTokens(host, other))
         == Some((Or(And(Host(host), Path("/x")), Or(Or(Host(other), PathPrefix("/x")), Host(other + "/"))), []))
  {
    MiddleParses(other);
    var middle := [OrSign] + QuotedMiddle(other);
    var path := [Open] + Call(PathHead, "/x") + [Close] + middle;
    ReadGroup(PathHead, "/x", middle);
    PrimaryParsesAt(path, Path("/x"), middle);
    ReadCall(HostHead, host, [AndSign] + path);
    assert ([AndSign] + path)[1..] == path && middle[1..] == QuotedMiddle(other);
    hide Call, ParseAnd, ParseOr, ParsePrimary, QuotedMiddle;
    BothParse(QuotedTokens(host, other), Host(host), [AndSign] + path, Path("/x"), middle);
    EitherParses(QuotedTokens(host, other), And(Host(host), Path("/x")), middle,
                 Or(Or(Host(other), PathPrefix("/x")), Host(other + "/")), []);
  }

  lemma PrimaryParsesAt(ts: seq<Token>, x: Expr, rest: seq<Token>)
    requires ParsePrimary(ts) == Some((x, rest)) && rest != [] && rest[0].OrSign?
    ensures ParseAnd(ts) == Some((x, rest))
  {
    PrimaryParses(ts, x, rest);
  }

  lemma MiddleParses(other: string)
    ensures ParseOr(QuotedMiddle(other)) == Some((Or(Or(Host(other), PathPrefix("/x")), Host(other + "/")), []))
  {
    var end := [OrSign] + QuotedEnd(other);
    ReadEither(HostHead, other, PrefixHead, "/x", end);
    PrimaryParses(QuotedMiddle(other), Or(Host(other), PathPrefix("/x")), end);
    ReadGroup(HostHead, other + "/", []);
    assert QuotedEnd(other) + [] == QuotedEnd(other) && end[1..] == QuotedEnd(other);
    PrimaryParses(QuotedEnd(other), Host(other + "/"), []);
    EitherParses(QuotedMiddle(other), Or(Host(other), PathPrefix("/x")), end, Host(other + "/"), []);
  }
}
