/** Traefik's rule language, as far as the proxy configuration uses it (internal/proxy/config.go):
    a rule is text, and what it matches is what the text reads as. */
module Rules {
  import opened Text
  import opened NetAddr

  datatype Expr =
    | Host(host: string)
    | Path(path: string)
    | PathPrefix(prefix: string)
    | And(left: Expr, right: Expr)
    | Or(left: Expr, right: Expr)

  predicate Holds(e: Expr, host: string, path: string)
  {
    match e
    case Host(h) => host == h
    case Path(p) => path == p
    case PathPrefix(p) => HasPrefix(path, p)
    case And(l, r) => Holds(l, host, path) && Holds(r, host, path)
    case Or(l, r) => Holds(l, host, path) || Holds(r, host, path)
  }

  // ---- Reading ----

  datatype Token = HostHead | PathHead | PrefixHead | Literal(text: string) | Open | Close | AndSign | OrSign

  function Cons(t: Token, rest: Option<seq<Token>>): Option<seq<Token>>
  {
    match rest
    case None => None
    case Some(ts) => Some([t] + ts)
  }

  /** A literal is whatever stands between two backquotes. */
  function Lex(s: string): Option<seq<Token>>
    decreases |s|
  {
    if s == "" then Some([])
    else if s[0] == ' ' then Lex(s[1..])
    else if s[0] == '`' then
      var end := IndexOf(s[1..], '`');
      if end < 0 then None else Cons(Literal(s[1..][..end]), Lex(s[1..][end + 1..]))
    else if HasPrefix(s, "Host(") then Cons(HostHead, Lex(s[5..]))
    else if HasPrefix(s, "Path(") then Cons(PathHead, Lex(s[5..]))
    else if HasPrefix(s, "PathPrefix(") then Cons(PrefixHead, Lex(s[11..]))
    else if HasPrefix(s, "&&") then Cons(AndSign, Lex(s[2..]))
    else if HasPrefix(s, "||") then Cons(OrSign, Lex(s[2..]))
    else if s[0] == '(' then Cons(Open, Lex(s[1..]))
    else if s[0] == ')' then Cons(Close, Lex(s[1..]))
    else None
  }

  function Literals(ts: seq<Token>): nat
  {
    if ts == [] then 0 else (if ts[0].Literal? then 1 else 0) + Literals(ts[1..])
  }

  function Leaves(e: Expr): nat
  {
    match e
    case And(l, r) => Leaves(l) + Leaves(r)
    case Or(l, r) => Leaves(l) + Leaves(r)
    case _ => 1
  }

  type Parsed = Option<(Expr, seq<Token>)>

  function Leaf(head: Token, text: string): Expr
  {
    if head.HostHead? then Host(text) else if head.PathHead? then Path(text) else PathPrefix(text)
  }

  /** What it took out of the tokens has as many literals as the expression has leaves. */
  ghost predicate Takes(ts: seq<Token>, r: Parsed)
  {
    r.Some? ==> |r.value.1| < |ts| && Literals(ts) == Leaves(r.value.0) + Literals(r.value.1)
  }

  function ParsePrimary(ts: seq<Token>): (r: Parsed)
    ensures Takes(ts, r)
    decreases |ts|, 0
  {
    if ts == [] then None
    else
      var more := ts[1..];
      match ts[0]
      case Open =>
        var inner := ParseOr(more);
        if inner.None? || inner.value.1 == [] || !inner.value.1[0].Close? then None
        else Some((inner.value.0, inner.value.1[1..]))
      case HostHead | PathHead | PrefixHead =>
        if more == [] || !more[0].Literal? then None
        else
          var end := more[1..];
          if end == [] || !end[0].Close? then None
          else
            assert Literals(ts) == Literals(more) == 1 + Literals(end) == 1 + Literals(end[1..]);
            Some((Leaf(ts[0], more[0].text), end[1..]))
      case _ => None
  }

  /** && binds tighter than ||. */
  function ParseAnd(ts: seq<Token>): (r: Parsed)
    ensures Takes(ts, r)
    decreases |ts|, 1
  {
    var first := ParsePrimary(ts);
    if first.None? || first.value.1 == [] || !first.value.1[0].AndSign? then first
    else
      var rest := ParseAnd(first.value.1[1..]);
      if rest.None? then None else Some((And(first.value.0, rest.value.0), rest.value.1))
  }

  function ParseOr(ts: seq<Token>): (r: Parsed)
    ensures Takes(ts, r)
    decreases |ts|, 2
  {
    var first := ParseAnd(ts);
    if first.None? || first.value.1 == [] || !first.value.1[0].OrSign? then first
    else
      var rest := ParseOr(first.value.1[1..]);
      if rest.None? then None else Some((Or(first.value.0, rest.value.0), rest.value.1))
  }

  /** What a rule's text reads as, if it is a rule at all. */
  function Read(s: string): Option<Expr>
  {
    var ts := Lex(s);
    if ts.None? then None
    else
      var e := ParseOr(ts.value);
      if e.Some? && e.value.1 == [] then Some(e.value.0) else None
  }

  /** A router whose rule does not read is dropped, and matches nothing. */
  predicate Matches(rule: string, host: string, path: string)
  {
    Read(rule).Some? && Holds(Read(rule).value, host, path)
  }

  // ---- Backquotes ----

  function Quotes(s: string): nat
  {
    if s == "" then 0 else (if s[0] == '`' then 1 else 0) + Quotes(s[1..])
  }

  lemma {:induction false} QuotesAppend(a: string, b: string)
    ensures Quotes(a + b) == Quotes(a) + Quotes(b)
  {
    if a == "" {
      assert a + b == b;
    } else {
      QuotesAppend(a[1..], b);
      assert (a + b)[1..] == a[1..] + b;
    }
  }

  lemma {:induction false} NoQuotes(s: string)
    ensures Quotes(s) == 0 <==> '`' !in s
  {
    if s != "" {
      NoQuotes(s[1..]);
      assert s == [s[0]] + s[1..];
    }
  }

  /** Every literal that is read uses up two backquotes, and no others are left. */
  lemma {:induction false} TwoQuotesEach(s: string)
    requires Lex(s).Some?
    ensures Quotes(s) == 2 * Literals(Lex(s).value)
    decreases |s|
  {
    if s != "" {
      if s[0] == '`' {
        var end := IndexOf(s[1..], '`');
        LiteralQuotes(s, end);
        TwoQuotesEach(s[1..][end + 1..]);
      } else {
        var n := GlueLength(s);
        TwoQuotesEach(s[n..]);
        QuotesAppend(s[..n], s[n..]);
        NoQuotes(s[..n]);
        assert s == s[..n] + s[n..];
      }
    }
  }

  /** How much the first token that is no literal takes, a blank included. */
  lemma GlueLength(s: string) returns (n: nat)
    requires s != "" && s[0] != '`' && Lex(s).Some?
    ensures 0 < n <= |s| && '`' !in s[..n] && Lex(s[n..]).Some?
    ensures Literals(Lex(s).value) == Literals(Lex(s[n..]).value)
  {
    n := if HasPrefix(s, "Host(") || HasPrefix(s, "Path(") then 5
         else if HasPrefix(s, "PathPrefix(") then 11
         else if HasPrefix(s, "&&") || HasPrefix(s, "||") then 2
         else 1;
    if s[0] != ' ' {
      var rest := Lex(s[n..]);
      assert Lex(s).value[1..] == rest.value;
    }
  }

  lemma LiteralQuotes(s: string, end: nat)
    requires s != "" && s[0] == '`' && IndexOf(s[1..], '`') == end
    ensures Quotes(s) == 2 + Quotes(s[1..][end + 1..])
    ensures Lex(s).Some? ==>
              && Lex(s[1..][end + 1..]).Some?
              && Literals(Lex(s).value) == 1 + Literals(Lex(s[1..][end + 1..]).value)
  {
    QuotesAround(s[1..], end);
    if Lex(s).Some? {
      assert Lex(s).value[1..] == Lex(s[1..][end + 1..]).value;
    }
  }

  lemma QuotesAround(s: string, n: nat)
    requires n < |s| && s[n] == '`' && '`' !in s[..n]
    ensures Quotes(s) == 1 + Quotes(s[n + 1..])
  {
    assert s == s[..n] + s[n..] && s[n..][1..] == s[n + 1..];
    QuotesAppend(s[..n], s[n..]);
    NoQuotes(s[..n]);
  }

  /** A text reads as an expression only with two backquotes for each of its leaves. */
  lemma ReadUsesQuotes(s: string)
    requires Read(s).Some?
    ensures Quotes(s) == 2 * Leaves(Read(s).value)
  {
    TwoQuotesEach(s);
  }

  // ---- Writing ----

  function TokenText(t: Token): string
  {
    match t
    case HostHead => "Host("
    case PathHead => "Path("
    case PrefixHead => "PathPrefix("
    case Literal(text) => "`" + text + "`"
    case Open => "("
    case Close => ")"
    case AndSign => " && "
    case OrSign => " || "
  }

  function Written(ts: seq<Token>): string
  {
    if ts == [] then "" else TokenText(ts[0]) + Written(ts[1..])
  }

  predicate Plain(ts: seq<Token>) { forall i :: 0 <= i < |ts| && ts[i].Literal? ==> '`' !in ts[i].text }

  lemma PlainAppend(a: seq<Token>, b: seq<Token>)
    ensures Plain(a + b) <==> Plain(a) && Plain(b)
  {
    assert forall i :: 0 <= i < |a| ==> (a + b)[i] == a[i];
    assert forall i :: 0 <= i < |b| ==> (a + b)[|a| + i] == b[i];
  }

  lemma LexText(t: Token, rest: string)
    requires t.Literal? ==> '`' !in t.text
    ensures Lex(TokenText(t) + rest) == Cons(t, Lex(rest))
  {
    var s := TokenText(t) + rest;
    match t
    case Literal(text) => LexLiteral(text, rest);
    case AndSign =>
      assert s == " " + "&&" + " " + rest;
      LexSign("&&", rest);
    case OrSign =>
      assert s == " " + "||" + " " + rest;
      LexSign("||", rest);
    case Open => LexGlue(s, 1, rest);
    case Close => LexGlue(s, 1, rest);
    case HostHead => LexGlue(s, 5, rest);
    case PathHead => LexGlue(s, 5, rest);
    case PrefixHead => LexGlue(s, 11, rest);
  }

  lemma LexGlue(s: string, n: nat, rest: string)
    requires n <= |s| && s[n..] == rest
    requires s[..n] in {"Host(", "Path(", "PathPrefix(", "(", ")"}
    ensures Lex(s) == Cons(
              if s[..n] == "Host(" then HostHead else if s[..n] == "Path(" then PathHead
              else if s[..n] == "PathPrefix(" then PrefixHead else if s[..n] == "(" then Open else Close, Lex(rest))
  {
    assert s == s[..n] + rest;
    if n == 11 {
      assert s[4] == 'P';
    }
  }

  lemma LexLiteral(text: string, rest: string)
    requires '`' !in text
    ensures Lex("`" + text + "`" + rest) == Cons(Literal(text), Lex(rest))
  {
    var s := "`" + text + "`" + rest;
    var more := s[1..];
    assert more == text + "`" + rest && more[|text|] == '`';
    assert forall k :: 0 <= k < |text| ==> more[k] == text[k];
    assert IndexOf(more, '`') == |text|;
    assert more[..|text|] == text && more[|text| + 1..] == rest;
  }

  lemma LexSign(sign: string, rest: string)
    requires sign == "&&" || sign == "||"
    ensures Lex(" " + sign + " " + rest) == Cons(if sign == "&&" then AndSign else OrSign, Lex(rest))
  {
    var s := " " + sign + " " + rest;
    var a := s[1..];
    assert a == sign + " " + rest && a[2..] == " " + rest && a[2..][1..] == rest;
    assert Lex(s) == Lex(a);
    assert Lex(a[2..]) == Lex(rest);
  }

  /** Written tokens are read back, as long as no literal holds a backquote. */
  lemma {:induction false} LexWritten(ts: seq<Token>)
    requires Plain(ts)
    ensures Lex(Written(ts)) == Some(ts)
  {
    if ts != [] {
      LexWritten(ts[1..]);
      LexText(ts[0], Written(ts[1..]));
      assert [ts[0]] + ts[1..] == ts;
    }
  }

  lemma {:induction false} WrittenAppend(a: seq<Token>, b: seq<Token>)
    ensures Written(a + b) == Written(a) + Written(b)
  {
    hide TokenText;
    if a == [] {
      assert a + b == b;
    } else {
      WrittenAppend(a[1..], b);
      assert (a + b)[1..] == a[1..] + b && (a + b)[0] == a[0];
    }
  }

  /** The backquotes inside literals. */
  function InnerQuotes(ts: seq<Token>): nat
  {
    if ts == [] then 0 else (if ts[0].Literal? then Quotes(ts[0].text) else 0) + InnerQuotes(ts[1..])
  }

  lemma TextQuotes(t: Token)
    ensures Quotes(TokenText(t)) == if t.Literal? then 2 + Quotes(t.text) else 0
  {
    if t.Literal? {
      QuotesAppend("`" + t.text, "`");
      QuotesAppend("`", t.text);
      assert Quotes("`") == 1 + Quotes("");
    } else {
      NoQuotes(TokenText(t));
    }
  }

  lemma {:induction false} WrittenQuotes(ts: seq<Token>)
    ensures Quotes(Written(ts)) == 2 * Literals(ts) + InnerQuotes(ts)
  {
    if ts != [] {
      WrittenQuotes(ts[1..]);
      TextQuotes(ts[0]);
      QuotesAppend(TokenText(ts[0]), Written(ts[1..]));
    }
  }

  lemma {:induction false} PlainIff(ts: seq<Token>)
    ensures InnerQuotes(ts) == 0 <==> Plain(ts)
  {
    if ts != [] {
      PlainIff(ts[1..]);
      assert ts == [ts[0]] + ts[1..];
      if ts[0].Literal? {
        NoQuotes(ts[0].text);
      }
    }
  }

  /** The round trip, for any rule: written tokens read as their expression exactly when no
      literal holds a backquote. */
  lemma ReadsIff(ts: seq<Token>, e: Expr)
    requires ParseOr(ts) == Some((e, []))
    ensures Read(Written(ts)) == Some(e) <==> Plain(ts)
  {
    if Plain(ts) {
      LexWritten(ts);
    }
    if Read(Written(ts)) == Some(e) {
      ReadUsesQuotes(Written(ts));
      WrittenQuotes(ts);
      PlainIff(ts);
    }
  }

  function Call(head: Token, text: string): seq<Token> { [head, Literal(text), Close] }

  lemma WrittenCall(head: Token, text: string)
    ensures Written(Call(head, text)) == TokenText(head) + "`" + text + "`)"
  {
    var c := Call(head, text);
    assert c[1..] == [Literal(text), Close] && c[1..][1..] == [Close] && c[1..][1..][1..] == [];
    assert Written([Close]) == ")";
    assert Written(c[1..]) == "`" + text + "`" + ")";
  }

  lemma WrittenOne(t: Token)
    ensures Written([t]) == TokenText(t)
  {
    assert [t][1..] == [];
  }

  lemma ReadCall(head: Token, text: string, rest: seq<Token>)
    requires head.HostHead? || head.PathHead? || head.PrefixHead?
    ensures ParsePrimary(Call(head, text) + rest) == Some((Leaf(head, text), rest))
  {
    var ts := Call(head, text) + rest;
    assert ts[0] == head && ts[1..][0] == Literal(text) && ts[1..][1..][0] == Close && ts[1..][1..][1..] == rest;
  }

  /** A call that no sign follows is a whole expression. */
  lemma ReadLone(head: Token, text: string, rest: seq<Token>)
    requires head.HostHead? || head.PathHead? || head.PrefixHead?
    requires rest == [] || !rest[0].AndSign?
    ensures ParseAnd(Call(head, text) + rest) == Some((Leaf(head, text), rest))
    ensures rest == [] || !rest[0].OrSign? ==> ParseOr(Call(head, text) + rest) == Some((Leaf(head, text), rest))
  {
    ReadCall(head, text, rest);
  }

  /** Two calls with || between them, closed after. */
  lemma ReadEither(a: Token, x: string, b: Token, y: string, rest: seq<Token>)
    requires (a.HostHead? || a.PathHead? || a.PrefixHead?) && (b.HostHead? || b.PathHead? || b.PrefixHead?)
    ensures ParsePrimary([Open] + Call(a, x) + [OrSign] + Call(b, y) + [Close] + rest)
         == Some((Or(Leaf(a, x), Leaf(b, y)), rest))
  {
    var end := [Close] + rest;
    var more := [OrSign] + (Call(b, y) + end);
    ReadLone(b, y, end);
    ReadLone(a, x, more);
    assert more[1..] == Call(b, y) + end && end[1..] == rest;
    var ts := [Open] + Call(a, x) + [OrSign] + Call(b, y) + [Close] + rest;
    assert ts[0] == Open && ts[1..] == Call(a, x) + more;
    hide Call, Leaf, ParseAnd;
    EitherParses(Call(a, x) + more, Leaf(a, x), more, Leaf(b, y), end);
    hide ParseOr;
  }

  /** A call in parentheses. */
  lemma ReadGroup(head: Token, text: string, rest: seq<Token>)
    requires head.HostHead? || head.PathHead? || head.PrefixHead?
    ensures ParsePrimary([Open] + Call(head, text) + [Close] + rest) == Some((Leaf(head, text), rest))
  {
    var end := [Close] + rest;
    ReadLone(head, text, end);
    var ts := [Open] + Call(head, text) + [Close] + rest;
    assert ts[0] == Open && ts[1..] == Call(head, text) + end && end[1..] == rest;
    hide Call, Leaf, ParseOr, ParseAnd;
  }

  lemma PrimaryParses(ts: seq<Token>, x: Expr, rest: seq<Token>)
    requires ParsePrimary(ts) == Some((x, rest)) && (rest == [] || !rest[0].AndSign?)
    ensures ParseAnd(ts) == Some((x, rest))
    ensures rest == [] || !rest[0].OrSign? ==> ParseOr(ts) == Some((x, rest))
  {
  }

  lemma BothParse(ts: seq<Token>, x: Expr, more: seq<Token>, y: Expr, end: seq<Token>)
    requires ParsePrimary(ts) == Some((x, more)) && more != [] && more[0].AndSign?
    requires ParseAnd(more[1..]) == Some((y, end))
    ensures ParseAnd(ts) == Some((And(x, y), end))
  {
  }

  lemma EitherParses(ts: seq<Token>, x: Expr, more: seq<Token>, y: Expr, end: seq<Token>)
    requires ParseAnd(ts) == Some((x, more)) && more != [] && more[0].OrSign? && ParseOr(more[1..]) == Some((y, end))
    ensures ParseOr(ts) == Some((Or(x, y), end))
  {
  }

  // ---- The rules of the proxy ----

  function HostRule(host: string): string { "Host(`" + host + "`)" }

  function PathRule(mount: string): string { "(Path(`" + mount + "`) || PathPrefix(`" + mount + "/`))" }

  function MountRule(host: string, mount: string): string { HostRule(host) + " && " + PathRule(mount) }

  function MountExpr(host: string, mount: string): Expr { And(Host(host), Or(Path(mount), PathPrefix(mount + "/"))) }

  function MountTokens(host: string, mount: string): seq<Token>
  {
    Call(HostHead, host)
      + ([AndSign] + ([Open] + Call(PathHead, mount) + [OrSign] + Call(PrefixHead, mount + "/") + [Close]))
  }

  /** A host's rule reads as that host exactly when it has no backquote. */
  lemma HostReadsIff(host: string)
    ensures Read(HostRule(host)) == Some(Host(host)) <==> '`' !in host
  {
    var ts := Call(HostHead, host);
    WrittenCall(HostHead, host);
    ReadLone(HostHead, host, []);
    assert ts + [] == ts && ts[1] == Literal(host);
    assert HostRule(host) == TokenText(HostHead) + "`" + host + "`)";
    ReadsIff(ts, Host(host));
  }

  /** An API mount's rule reads as what is meant exactly when host and mount have none. */
  lemma MountReadsIff(host: string, mount: string)
    ensures Read(MountRule(host, mount)) == Some(MountExpr(host, mount)) <==> '`' !in host && '`' !in mount
  {
    MountIsWritten(host, mount);
    MountParses(host, mount);
    MountIsPlain(host, mount);
    ReadsIff(MountTokens(host, mount), MountExpr(host, mount));
  }

  lemma MountIsPlain(host: string, mount: string)
    ensures Plain(MountTokens(host, mount)) <==> '`' !in host && '`' !in mount
  {
    var ts := MountTokens(host, mount);
    assert ts == [HostHead, Literal(host), Close, AndSign, Open, PathHead, Literal(mount), Close, OrSign,
                  PrefixHead, Literal(mount + "/"), Close, Close];
    assert ts[1] == Literal(host) && ts[6] == Literal(mount) && ts[10] == Literal(mount + "/");
  }

  lemma MountIsWritten(host: string, mount: string)
    ensures MountRule(host, mount) == Written(MountTokens(host, mount))
  {
    var path, prefix := Call(PathHead, mount), Call(PrefixHead, mount + "/");
    WrittenAppend([Open] + path + [OrSign] + prefix, [Close]);
    WrittenAppend([Open] + path + [OrSign], prefix);
    WrittenAppend([Open] + path, [OrSign]);
    WrittenAppend([Open], path);
    WrittenAppend([AndSign], [Open] + path + [OrSign] + prefix + [Close]);
    WrittenAppend(Call(HostHead, host), [AndSign] + ([Open] + path + [OrSign] + prefix + [Close]));
    WrittenCall(HostHead, host);
    WrittenCall(PathHead, mount);
    WrittenCall(PrefixHead, mount + "/");
    WrittenOne(Open);
    WrittenOne(Close);
    WrittenOne(OrSign);
    WrittenOne(AndSign);
    hide Written, Call;
    assert PathRule(mount)
        == "(" + ("Path(" + "`" + mount + "`)") + " || " + ("PathPrefix(" + "`" + (mount + "/") + "`)") + ")";
  }

  lemma MountParses(host: string, mount: string)
    ensures ParseOr(MountTokens(host, mount)) == Some((MountExpr(host, mount), []))
  {
    var rest := [Open] + Call(PathHead, mount) + [OrSign] + Call(PrefixHead, mount + "/") + [Close];
    ReadEither(PathHead, mount, PrefixHead, mount + "/", []);
    assert rest + [] == rest;
    ReadCall(HostHead, host, [AndSign] + rest);
    assert ([AndSign] + rest)[1..] == rest;
    hide Call;
    assert ParseAnd(rest) == Some((Or(Path(mount), PathPrefix(mount + "/")), []));
  }
}
