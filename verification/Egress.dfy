/** The egress proxy's side of the allow-list (cmd/egress-proxy/main.go): it parses back what
    the run-contract compiler rendered, in another program. */
module Egress {
  import opened Text
  import opened NetAddr
  import M = Manifest
  import C = Compile

  /** unicode.IsSpace. */
  predicate IsSpace(c: char)
  {
    || '\t' <= c <= '\r' || c == ' ' || c == '\U{0085}' || c == '\U{00A0}' || c == '\U{1680}'
    || '\U{2000}' <= c <= '\U{200A}' || c == '\U{2028}' || c == '\U{2029}' || c == '\U{202F}'
    || c == '\U{205F}' || c == '\U{3000}'
  }

  function TrimSpace(s: string): string
    decreases |s|
  {
    if s == "" then ""
    else if IsSpace(s[0]) then TrimSpace(s[1..])
    else if IsSpace(s[|s| - 1]) then TrimSpace(s[..|s| - 1])
    else s
  }

  function Normalize(s: string, defaultPort: string): Option<string>
  {
    var trimmed := TrimSpace(s);
    if trimmed == "" then None
    else
      var split := SplitHostPort(trimmed);
      if split.None? && defaultPort == "" then None
      else
        var hp := if split.Some? then split.value else HostPort(trimmed, defaultPort);
        if hp.host == "" || '/' in hp.host || '\\' in hp.host || ' ' in hp.host then None
        else
          var n := Atoi(hp.port);
          if n.None? || n.value < 1 || n.value > 65535 then None
          else Some(JoinHostPort(hp.host, hp.port))
  }

  function EntryDestination(entry: string): Option<string>
  {
    var trimmed := TrimSpace(entry);
    if trimmed == "" then None else Normalize(trimmed, "")
  }

  function Destinations(entries: seq<string>): seq<Option<string>>
  {
    seq(|entries|, i requires 0 <= i < |entries| => EntryDestination(entries[i]))
  }

  ghost predicate ParsesTo(raw: string, allow: set<string>)
  {
    forall d :: d in allow <==> Some(d) in Destinations(Split(raw, ','))
  }

  /** The destinations of the well-formed entries; the others are skipped. */
  method ParseAllowlist(raw: string) returns (allow: set<string>)
    ensures ParsesTo(raw, allow)
  {
    hide Split, TrimSpace, Normalize;
    var entries := Split(raw, ',');
    ghost var dests := Destinations(entries);
    assert |dests| == |entries| && forall k :: 0 <= k < |dests| ==> dests[k] == EntryDestination(entries[k]);
    allow := {};
    for i := 0 to |entries|
      invariant forall d :: d in allow <==> Some(d) in dests[..i]
    {
      assert dests[..i + 1] == dests[..i] + [EntryDestination(entries[i])];
      var entry := TrimSpace(entries[i]);
      if entry == "" {
        continue;
      }
      var dest := Normalize(entry, "");
      if dest.None? {
        continue;
      }
      allow := allow + {dest.value};
    }
    assert dests[..|entries|] == dests;
    assert forall d :: d in allow <==> Some(d) in dests;
  }

  // ---- Round trip ----

  ghost predicate ValidRule(r: M.EgressRule) { M.EgressHost(r.host) && M.Port(r.port) }

  ghost predicate ValidRules(rules: seq<M.EgressRule>)
  {
    forall i :: 0 <= i < |rules| ==> ValidRule(rules[i])
  }

  lemma TrimNothing(s: string)
    requires s != "" && !IsSpace(s[0]) && !IsSpace(s[|s| - 1])
    ensures TrimSpace(s) == s
  {
  }

  lemma RuleShape(r: M.EgressRule)
    requires ValidRule(r)
    ensures var s := C.RenderRule(r);
            && PlainName(r.host) && PlainName(Decimal(r.port)) && JoinHostPort(r.host, Decimal(r.port)) == s
            && !IsSpace(s[0]) && !IsSpace(s[|s| - 1]) && ',' !in s
            && '/' !in r.host && '\\' !in r.host && ' ' !in r.host
  {
    var s, port := C.RenderRule(r), Decimal(r.port);
    forall i | 0 <= i < |port| ensures IsDigit(port[i]) {}
    assert s[0] == r.host[0] && s[|s| - 1] == port[|port| - 1];
  }

  /** The rendered form of a valid rule is its own normal form. */
  lemma RuleIsNormal(r: M.EgressRule)
    requires ValidRule(r)
    ensures Normalize(C.RenderRule(r), "") == Some(C.RenderRule(r))
    ensures TrimSpace(C.RenderRule(r)) == C.RenderRule(r)
  {
    RuleShape(r);
    TrimNothing(C.RenderRule(r));
    SplitUndoesJoin(r.host, Decimal(r.port));
    AtoiDecimal(r.port);
  }

  lemma RuleKeysDiffer(a: M.EgressRule, b: M.EgressRule)
    requires ValidRule(a) && ValidRule(b) && C.RenderRule(a) == C.RenderRule(b)
    ensures a == b
  {
    RuleShape(a);
    RuleShape(b);
    SplitUndoesJoin(a.host, Decimal(a.port));
    SplitUndoesJoin(b.host, Decimal(b.port));
    DecimalInjective(a.port, b.port);
  }

  lemma EntriesOfRendered(rules: seq<M.EgressRule>)
    requires ValidRules(rules) && rules != []
    ensures Split(C.RenderAllowlist(rules), ',') == seq(|rules|, i requires 0 <= i < |rules| => C.RenderRule(rules[i]))
  {
    var parts := seq(|rules|, i requires 0 <= i < |rules| => C.RenderRule(rules[i]));
    forall i | 0 <= i < |parts| ensures ',' !in parts[i] { RuleShape(rules[i]); }
    SplitJoin(parts, ',');
  }

  /** Parsing what was rendered gives back exactly the declared pairs. */
  lemma AllowlistRoundTrip(rules: seq<M.EgressRule>, allow: set<string>)
    requires ValidRules(rules) && ParsesTo(C.RenderAllowlist(rules), allow)
    ensures forall d :: d in allow <==> exists i :: 0 <= i < |rules| && d == C.RenderRule(rules[i])
  {
    if rules == [] {
      assert Destinations(Split(C.RenderAllowlist(rules), ',')) == [None];
    } else {
      EntriesOfRendered(rules);
      var dests := Destinations(Split(C.RenderAllowlist(rules), ','));
      assert |dests| == |rules|;
      forall i | 0 <= i < |rules| ensures dests[i] == Some(C.RenderRule(rules[i])) {
        EntryOfRule(rules[i]);
      }
    }
  }

  lemma EntryOfRule(r: M.EgressRule)
    requires ValidRule(r)
    ensures EntryDestination(C.RenderRule(r)) == Some(C.RenderRule(r))
  {
    RuleIsNormal(r);
  }

  /** The proxy accepts the canonical form of a host and port exactly when that pair was
      declared, with the port spelled out or, on port 80, left to the default. */
  lemma AllowedIffDeclared(rules: seq<M.EgressRule>, allow: set<string>, r: M.EgressRule)
    requires ValidRules(rules) && ParsesTo(C.RenderAllowlist(rules), allow) && ValidRule(r)
    ensures Normalize(C.RenderRule(r), "") == Some(C.RenderRule(r))
    ensures C.RenderRule(r) in allow <==> r in rules
    ensures r.port == 80 ==> Normalize(r.host, "80") == Some(C.RenderRule(r))
  {
    AllowlistRoundTrip(rules, allow);
    RuleIsNormal(r);
    if C.RenderRule(r) in allow {
      var i :| 0 <= i < |rules| && C.RenderRule(r) == C.RenderRule(rules[i]);
      assert ValidRule(rules[i]);
      RuleKeysDiffer(r, rules[i]);
    }
    if r.port == 80 {
      DefaultPortIsDeclared(r);
    }
  }

  lemma DefaultPortIsDeclared(r: M.EgressRule)
    requires ValidRule(r) && r.port == 80
    ensures Normalize(r.host, "80") == Some(C.RenderRule(r))
  {
    RuleShape(r);
    TrimNothing(r.host);
    assert SplitHostPort(r.host).None?;
    AtoiDecimal(80);
    assert Decimal(80) == "80";
  }

  /** Whatever a client asks for, in whatever spelling, what the check lets through is the
      canonical form of a declared pair. */
  lemma OnlyDeclaredIsAdmitted(rules: seq<M.EgressRule>, allow: set<string>, request: string, defaultPort: string)
    requires ValidRules(rules) && ParsesTo(C.RenderAllowlist(rules), allow)
    ensures var dest := Normalize(request, defaultPort);
            dest.Some? && dest.value in allow ==> exists r :: r in rules && dest == Some(C.RenderRule(r))
  {
    AllowlistRoundTrip(rules, allow);
    hide Normalize, ParsesTo, C.RenderRule, C.RenderAllowlist;
    var dest := Normalize(request, defaultPort);
    if dest.Some? && dest.value in allow {
      var i :| 0 <= i < |rules| && dest.value == C.RenderRule(rules[i]);
      assert rules[i] in rules;
    }
  }

  // ---- What is dialed ----

  /** A CONNECT names its destination; a plain request has an absolute URL, of which the
      scheme and the host with its port, if any, matter here. */
  datatype Request = Connect(host: string) | Plain(scheme: string, host: string)

  /** The destination the handler checks, if it gets that far. */
  function Checked(q: Request): Option<string>
  {
    match q
    case Connect(host) => Normalize(host, "")
    case Plain(scheme, host) => if scheme == "" then None else Normalize(host, "80")
  }

  /** Only digits make a URL's port. */
  function CutPort(s: string): HostPort
  {
    var colon := LastIndexOf(s, ':');
    if colon >= 0 && AllDigits(s[colon + 1..]) then HostPort(s[..colon], s[colon + 1..]) else HostPort(s, "")
  }

  function Unbracketed(h: string): string
  {
    if |h| >= 2 && h[0] == '[' && h[|h| - 1] == ']' then h[1..|h| - 1] else h
  }

  /** url.URL's Hostname and Port. */
  function UrlHostPort(s: string): HostPort
  {
    HostPort(Unbracketed(CutPort(s).host), CutPort(s).port)
  }

  function SchemePort(scheme: string): string { if scheme == "https" then "443" else "80" }

  /** The address the handler dials: a CONNECT the one it checked; a plain request the URL's
      own, where the transport fills in the port by the scheme. */
  function Dialed(allow: set<string>, q: Request): Option<string>
  {
    var dest := Checked(q);
    if dest.None? || dest.value !in allow then None
    else
      match q
      case Connect(_) => dest
      case Plain(scheme, host) =>
        if scheme != "http" && scheme != "https" then None
        else
          var hp := UrlHostPort(host);
          Some(JoinHostPort(hp.host, if hp.port == "" then SchemePort(scheme) else hp.port))
  }

  ghost predicate Declared(rules: seq<M.EgressRule>, addr: string)
  {
    exists r :: r in rules && ValidRule(r) && addr == C.RenderRule(r)
  }

  /** No joined form of a host with a colon is a rule's. */
  lemma Bracketed(host: string, port: string, r: M.EgressRule)
    requires ValidRule(r) && JoinHostPort(host, port) == C.RenderRule(r)
    ensures ':' !in host
  {
    RuleShape(r);
    assert C.RenderRule(r)[0] == r.host[0] && '[' !in r.host;
  }

  lemma CutRule(host: string, port: string, r: M.EgressRule)
    requires ValidRule(r) && ':' !in host && host + ":" + port == C.RenderRule(r)
    ensures host == r.host && port == Decimal(r.port)
  {
    RuleShape(r);
    var s := C.RenderRule(r);
    assert s == r.host + ":" + Decimal(r.port);
    assert s[|host|] == ':' && s[|r.host|] == ':';
    assert |host| <= |r.host| by { assert forall k :: 0 <= k < |host| ==> s[k] == host[k]; }
    assert |r.host| <= |host| by { assert forall k :: 0 <= k < |r.host| ==> s[k] == r.host[k]; }
    assert host == s[..|host|] && r.host == s[..|host|];
    assert port == s[|host| + 1..] && Decimal(r.port) == s[|host| + 1..];
  }

  /** A split address is its two parts, the host with or without brackets. */
  lemma SplitForms(s: string)
    requires SplitHostPort(s).Some?
    ensures var hp := SplitHostPort(s).value;
            && (s == hp.host + ":" + hp.port || s == "[" + hp.host + "]:" + hp.port)
            && (s[0] != '[' ==> s == hp.host + ":" + hp.port && '[' !in hp.host && ':' !in hp.port)
            && (s[0] == '[' ==> s == "[" + hp.host + "]:" + hp.port && ':' !in hp.port)
  {
    var colon := LastIndexOf(s, ':');
    if s[0] == '[' {
      var end := IndexOf(s, ']');
      assert s == "[" + s[1..end] + "]:" + s[colon + 1..];
    } else {
      assert s == s[..colon] + ":" + s[colon + 1..];
    }
  }

  /** How a URL's host is read: with a port, with brackets around it and a port, or bare. */
  lemma UrlForms(host: string, port: string)
    requires PlainName(host) && AllDigits(port) && host != ""
    ensures UrlHostPort(host + ":" + port) == HostPort(host, port)
    ensures UrlHostPort("[" + host + "]:" + port) == HostPort(host, port)
    ensures UrlHostPort(host) == HostPort(host, "")
  {
    PortIsCut(host, port);
    PortIsCut("[" + host + "]", port);
    BracketsComeOff(host);
    assert CutPort(host) == HostPort(host, "");
    hide CutPort, Unbracketed;
    assert "[" + host + "]" + ":" + port == "[" + host + "]:" + port;
  }

  lemma PortIsCut(a: string, port: string)
    requires AllDigits(port)
    ensures CutPort(a + ":" + port) == HostPort(a, port)
  {
    LastColon(a, port);
    hide LastIndexOf;
  }

  lemma BracketsComeOff(host: string)
    requires PlainName(host)
    ensures Unbracketed(host) == host && Unbracketed("[" + host + "]") == host
  {
    assert ("[" + host + "]")[1..|host| + 1] == host;
  }

  lemma {:induction false} LastIs(s: string, c: char, n: nat)
    requires n < |s| && s[n] == c && forall i :: n < i < |s| ==> s[i] != c
    ensures LastIndexOf(s, c) == n
  {
    if n < |s| - 1 {
      LastIs(s[..|s| - 1], c, n);
    }
  }

  lemma LastColon(a: string, port: string)
    requires AllDigits(port)
    ensures var s := a + ":" + port;
            LastIndexOf(s, ':') == |a| && s[..|a|] == a && s[|a| + 1..] == port
  {
    var s := a + ":" + port;
    forall i | |a| < i < |s| ensures s[i] != ':' { assert s[i] == port[i - |a| - 1] && IsDigit(s[i]); }
    LastIs(s, ':', |a|);
    hide LastIndexOf;
  }

  /** A host that was checked with a port of its own is dialed as checked. */
  lemma ExplicitPort(host: string, r: M.EgressRule)
    requires ValidRule(r) && TrimSpace(host) == host && ':' in host
    requires Normalize(host, "80") == Some(C.RenderRule(r))
    ensures UrlHostPort(host) == HostPort(r.host, Decimal(r.port))
  {
    RuleShape(r);
    hide UrlHostPort, LastIndexOf, IndexOf;
    if SplitHostPort(host).Some? {
      var hp := SplitHostPort(host).value;
      SplitForms(host);
      hide SplitHostPort;
      Bracketed(hp.host, hp.port, r);
      CutRule(hp.host, hp.port, r);
      UrlForms(r.host, Decimal(r.port));
    } else {
      Bracketed(host, "80", r);
    }
  }

  /** Without one, it was checked for port 80. */
  lemma NoPort(host: string, r: M.EgressRule)
    requires ValidRule(r) && TrimSpace(host) == host && ':' !in host
    requires Normalize(host, "80") == Some(C.RenderRule(r))
    ensures host == r.host && r.port == 80 && UrlHostPort(host) == HostPort(host, "")
  {
    NoColonNoSplit(host);
    hide UrlHostPort, SplitHostPort, LastIndexOf, IndexOf;
    RuleShape(r);
    CutRule(host, "80", r);
    UrlForms(host, "80");
    Eighty(r.port);
  }

  lemma NoColonNoSplit(host: string)
    requires ':' !in host
    ensures SplitHostPort(host).None?
  {
  }

  lemma Eighty(n: nat)
    requires Decimal(n) == "80"
    ensures n == 80
  {
    assert Decimal(80) == "80";
    DecimalInjective(n, 80);
  }

  lemma WellKnownPorts()
    ensures Decimal(80) == "80" && Decimal(443) == "443"
  {
    assert Decimal(4) == "4" && Decimal(44) == "44";
  }

  /** The exact extent of the promise that only declared pairs are dialed: for a CONNECT
      always; for a plain request when its host is spelled without blanks around it and has a
      port of its own, or the scheme is http, or port 443 of that host is declared as well. */
  lemma DialedIsDeclaredIff(rules: seq<M.EgressRule>, allow: set<string>, q: Request)
    requires ValidRules(rules) && ParsesTo(C.RenderAllowlist(rules), allow)
    ensures Dialed(allow, q).Some? ==>
              (Declared(rules, Dialed(allow, q).value) <==>
                 || q.Connect?
                 || (TrimSpace(q.host) == q.host
                     && (':' in q.host || q.scheme == "http" || M.EgressRule(q.host, 443) in rules)))
  {
    if Dialed(allow, q).Some? {
      var checked := Checked(q).value;
      OnlyDeclaredIsAdmitted(rules, allow, q.host, if q.Connect? then "" else "80");
      var r :| r in rules && checked == C.RenderRule(r);
      assert ValidRule(r);
      if q.Plain? {
        PlainDialsDeclared(rules, q.scheme, q.host, r);
      }
    }
  }

  /** And a declared pair is dialed when it is asked for, whichever way. */
  lemma DeclaredIsDialed(rules: seq<M.EgressRule>, allow: set<string>, r: M.EgressRule, scheme: string)
    requires ValidRules(rules) && ParsesTo(C.RenderAllowlist(rules), allow) && r in rules && ValidRule(r)
    requires scheme == "http" || scheme == "https"
    ensures Dialed(allow, Connect(r.host + ":" + Decimal(r.port))) == Some(r.host + ":" + Decimal(r.port))
    ensures Dialed(allow, Plain(scheme, r.host + ":" + Decimal(r.port))) == Some(r.host + ":" + Decimal(r.port))
  {
    RuleShape(r);
    RuleIsNormal(r);
    NormalWithDefault(r);
    AllowedIffDeclared(rules, allow, r);
    assert C.RenderRule(r) == r.host + ":" + Decimal(r.port);
    UrlForms(r.host, Decimal(r.port));
    hide Normalize, TrimSpace, UrlHostPort, ParsesTo, C.RenderRule, C.RenderAllowlist, Decimal;
  }

  lemma NormalWithDefault(r: M.EgressRule)
    requires ValidRule(r)
    ensures Normalize(C.RenderRule(r), "80") == Some(C.RenderRule(r))
  {
    RuleIsNormal(r);
    RuleShape(r);
    SplitUndoesJoin(r.host, Decimal(r.port));
    hide SplitHostPort, TrimSpace, Atoi, Decimal;
  }

  /** Nothing else is refused: what the check admits is dialed, but for a scheme that is not the web's. */
  lemma DialedIff(allow: set<string>, q: Request)
    ensures Dialed(allow, q).Some? <==>
              && Checked(q).Some? && Checked(q).value in allow
              && (q.Connect? || q.scheme == "http" || q.scheme == "https")
  {
  }

  lemma PlainDialsDeclared(rules: seq<M.EgressRule>, scheme: string, host: string, r: M.EgressRule)
    requires ValidRules(rules) && r in rules && (scheme == "http" || scheme == "https")
    requires ValidRule(r) && Normalize(host, "80") == Some(C.RenderRule(r))
    ensures var hp := UrlHostPort(host);
            Declared(rules, JoinHostPort(hp.host, if hp.port == "" then SchemePort(scheme) else hp.port)) <==>
              TrimSpace(host) == host && (':' in host || scheme == "http" || M.EgressRule(host, 443) in rules)
  {
    hide UrlHostPort, Normalize, TrimSpace, Decimal, C.RenderRule;
    RuleShape(r);
    WellKnownPorts();
    NotEmpty(host, r);
    if TrimSpace(host) != host {
      BlanksStay(rules, scheme, host);
    } else if ':' in host {
      ExplicitPort(host, r);
      assert Declared(rules, C.RenderRule(r));
    } else {
      NoPort(host, r);
      HttpsPort(rules, host);
      assert Declared(rules, C.RenderRule(r));
    }
  }

  lemma NotEmpty(host: string, r: M.EgressRule)
    requires ValidRule(r) && Normalize(host, "80") == Some(C.RenderRule(r))
    ensures host != ""
  {
  }

  lemma HttpsPort(rules: seq<M.EgressRule>, host: string)
    requires ValidRules(rules) && M.EgressHost(host) && ':' !in host && Decimal(443) == "443"
    ensures Declared(rules, host + ":443") <==> M.EgressRule(host, 443) in rules
  {
    var https := M.EgressRule(host, 443);
    assert C.RenderRule(https) == host + ":443";
    if Declared(rules, host + ":443") {
      var x :| x in rules && ValidRule(x) && host + ":443" == C.RenderRule(x);
      RuleKeysDiffer(x, https);
    }
  }

  /** The check trims blanks around the host; the URL keeps them, and no rule has any. */
  lemma BlanksStay(rules: seq<M.EgressRule>, scheme: string, host: string)
    requires host != "" && TrimSpace(host) != host
    ensures var hp := UrlHostPort(host);
            !Declared(rules, JoinHostPort(hp.host, if hp.port == "" then SchemePort(scheme) else hp.port))
  {
    var hp := UrlHostPort(host);
    var port := if hp.port == "" then SchemePort(scheme) else hp.port;
    if Declared(rules, JoinHostPort(hp.host, port)) {
      var r :| r in rules && ValidRule(r) && JoinHostPort(hp.host, port) == C.RenderRule(r);
      RuleShape(r);
      Bracketed(hp.host, port, r);
      CutRule(hp.host, port, r);
      NoBlanksAround(host, r);
    }
  }

  lemma NoBlanksAround(host: string, r: M.EgressRule)
    requires ValidRule(r) && host != "" && UrlHostPort(host).host == r.host
    ensures TrimSpace(host) == host
  {
    hide TrimSpace, UrlHostPort, C.RenderRule;
    RuleShape(r);
    assert M.Alnum(r.host[0]) && M.Alnum(r.host[|r.host| - 1]);
    UrlEnds(host);
    TrimNothing(host);
  }

  /** A URL's host begins and ends as its parts do. */
  lemma UrlEnds(s: string)
    requires s != "" && UrlHostPort(s).host != ""
    ensures var h := UrlHostPort(s).host;
            && (s[0] == h[0] || s[0] == '[')
            && (s[|s| - 1] == h[|h| - 1] || s[|s| - 1] == ']' || s[|s| - 1] == ':' || IsDigit(s[|s| - 1]))
  {
    var colon := LastIndexOf(s, ':');
    if colon >= 0 && AllDigits(s[colon + 1..]) && colon + 1 < |s| {
      assert s[|s| - 1] == s[colon + 1..][|s| - colon - 2];
    }
  }

  /** The failing request: with only port 80 of a host declared, an https URL of that host
      without a port passes the check for port 80, and port 443 is dialed. */
  lemma HttpsWithoutAPort(rules: seq<M.EgressRule>, allow: set<string>, host: string)
    requires ValidRules(rules) && ParsesTo(C.RenderAllowlist(rules), allow)
    requires M.EgressRule(host, 80) in rules && M.EgressRule(host, 443) !in rules
    ensures Dialed(allow, Plain("https", host)) == Some(host + ":443") && !Declared(rules, host + ":443")
  {
    var r := M.EgressRule(host, 80);
    assert ValidRule(r);
    HostIsBare(r);
    hide UrlHostPort, Normalize, TrimSpace, Decimal, ParsesTo, C.RenderRule;
    DefaultPortIsDeclared(r);
    AllowedIffDeclared(rules, allow, r);
    WellKnownPorts();
    RuleShape(r);
    NoPort(host, r);
    HttpsPort(rules, host);
    HttpsDials(allow, host, C.RenderRule(r));
    hide Dialed;
  }

  lemma HttpsDials(allow: set<string>, host: string, dest: string)
    requires Normalize(host, "80") == Some(dest) && dest in allow
    requires ':' !in host && UrlHostPort(host) == HostPort(host, "")
    ensures Dialed(allow, Plain("https", host)) == Some(host + ":443")
  {
    hide Normalize, UrlHostPort;
    assert host + ":" + "443" == host + ":443";
  }

  lemma HostIsBare(r: M.EgressRule)
    requires ValidRule(r)
    ensures TrimSpace(r.host) == r.host
  {
    TrimNothing(r.host);
  }

  /** End to end: the sidecar of a compiled plan, reading its own environment variable,
      accepts a destination exactly when the manifest declares it. */
  lemma SidecarEnforcesTheManifest(m: M.Manifest, opts: C.Options, allow: set<string>, r: M.EgressRule)
    requires C.Compilable(m, opts) && m.egress != [] && ValidRule(r)
    requires |C.PlanOf(m, opts).services| > 0 && "EGRESS_ALLOWLIST" in C.PlanOf(m, opts).services[0].env
    requires ParsesTo(C.PlanOf(m, opts).services[0].env["EGRESS_ALLOWLIST"], allow)
    ensures C.PlanOf(m, opts).services[0].name == M.EGRESS_SERVICE
    ensures C.RenderRule(r) in allow <==> r in m.egress
  {
    assert C.PlanOf(m, opts).services[0] == C.EgressPart(m, opts)[0];
    AllowedIffDeclared(m.egress, allow, r);
  }
}
