/** What `docker compose` makes of the values in the file it is given (internal/runcontract/compose.go,
    internal/runner/compose.go:155-160): it interpolates variables, and the rendering escapes
    none of them. */
module Interpolation {
  import opened Text
  import opened NetAddr
  import opened Manifest
  import opened Compile
  import opened Stack
  import opened ComposeFile

  /** What variables stand for: an unset one for nothing; a braced expression may be refused. */
  datatype Env = Env(value: string -> string, braced: string -> Option<string>)

  predicate NameStart(c: char) { 'a' <= c <= 'z' || 'A' <= c <= 'Z' || c == '_' }

  function NameLength(s: string): (n: nat)
    ensures n <= |s| && (s != "" && NameStart(s[0]) ==> n > 0)
  {
    if s != "" && (NameStart(s[0]) || IsDigit(s[0])) then 1 + NameLength(s[1..]) else 0
  }

  function After(first: string, rest: Option<string>): Option<string>
  {
    if rest.None? then None else Some(first + rest.value)
  }

  /** $$ is a '$', $NAME and ${...} are substituted, and any other '$' is an error. */
  function Interpolate(s: string, env: Env): Option<string>
    decreases |s|
  {
    if s == "" then Some("")
    else if s[0] != '$' then After(s[..1], Interpolate(s[1..], env))
    else if |s| == 1 then None
    else if s[1] == '$' then After("$", Interpolate(s[2..], env))
    else if s[1] == '{' then
      var end := IndexOf(s[2..], '}');
      if end < 0 || env.braced(s[2..][..end]).None? then None
      else After(env.braced(s[2..][..end]).value, Interpolate(s[2..][end + 1..], env))
    else if NameStart(s[1]) then
      var n := NameLength(s[1..]);
      After(env.value(s[1..][..n]), Interpolate(s[1..][n..], env))
    else None
  }

  lemma {:induction false} NothingToInterpolate(s: string, env: Env)
    requires '$' !in s
    ensures Interpolate(s, env) == Some(s)
  {
    if s != "" {
      NothingToInterpolate(s[1..], env);
      assert s[..1] + s[1..] == s;
    }
  }

  const UNSET := Env(_ => "", _ => Some(""))

  /** With no variable set, every '$' makes a value shorter. */
  lemma {:induction false} Shortens(s: string)
    ensures var r := Interpolate(s, UNSET); r.Some? ==> |r.value| <= |s| && ('$' in s ==> |r.value| < |s|)
    decreases |s|
  {
    hide IndexOf, NameLength;
    if s != "" {
      if s[0] != '$' {
        Shortens(s[1..]);
        assert s == [s[0]] + s[1..];
      } else if |s| > 1 && s[1] == '$' {
        Shortens(s[2..]);
      } else if |s| > 1 && s[1] == '{' && IndexOf(s[2..], '}') >= 0 {
        Shortens(s[2..][IndexOf(s[2..], '}') + 1..]);
      } else if |s| > 1 && NameStart(s[1]) {
        Shortens(s[1..][NameLength(s[1..])..]);
      }
    }
  }

  /** A value comes out as it went in, wherever the stack is brought up, exactly when it holds no '$'. */
  lemma SurvivesIff(s: string)
    ensures (forall env :: Interpolate(s, env) == Some(s)) <==> '$' !in s
  {
    Shortens(s);
    var unset := UNSET;
    assert '$' in s ==> Interpolate(s, unset) != Some(s);
    forall env: Env | '$' !in s ensures Interpolate(s, env) == Some(s) { NothingToInterpolate(s, env); }
  }

  /** Of two '$' one is left, in every environment. */
  lemma {:induction false} DoubledIsHalved(a: string, b: string, env: Env)
    requires '$' !in a && '$' !in b
    ensures Interpolate(a + "$$" + b, env) == Some(a + "$" + b)
  {
    var s := a + "$$" + b;
    if a == "" {
      NothingToInterpolate(b, env);
      assert s[2..] == b && s[0] == s[1] == '$' && a + "$" + b == "$" + b;
    } else {
      DoubledIsHalved(a[1..], b, env);
      assert s[1..] == a[1..] + "$$" + b && s[..1] + (a[1..] + "$" + b) == a + "$" + b;
    }
  }

  // ---- The whole file ----

  /** v is one of the values of a rendered service. */
  ghost predicate HasValue(c: ComposeService, v: string)
  {
    || v in [c.image, c.runtime, c.user, c.restart] || v in c.tmpfs || v in c.capDrop || v in c.securityOpt
    || v in c.networks || v in c.command || (exists k :: k in c.environment && c.environment[k] == v)
    || (exists i :: 0 <= i < |c.volumes| && v in [c.volumes[i].source, c.volumes[i].target])
    || (c.healthcheck.Some?
        && (v in c.healthcheck.value.test
            || v in [c.healthcheck.value.interval, c.healthcheck.value.timeout, c.healthcheck.value.startPeriod]))
  }

  ghost predicate Survives(c: ComposeService)
  {
    forall v: string, env: Env :: HasValue(c, v) ==> Interpolate(v, env) == Some(v)
  }

  ghost predicate NoDollar(c: ComposeService) { forall v: string :: HasValue(c, v) ==> '$' !in v }

  lemma ServiceSurvivesIff(c: ComposeService)
    ensures Survives(c) <==> NoDollar(c)
  {
    hide HasValue, Interpolate;
    forall v | Survives(c) && HasValue(c, v) ensures '$' !in v {
      assert forall env :: Interpolate(v, env) == Some(v);
      SurvivesIff(v);
    }
    forall v: string, env: Env | NoDollar(c) && HasValue(c, v) ensures Interpolate(v, env) == Some(v) {
      NothingToInterpolate(v, env);
    }
  }

  /** Every service of a compiled plan reaches docker as it was compiled, wherever the stack is
      brought up, exactly when no value of it holds a '$': an Owner's static variable, command
      or health check may. */
  lemma CompiledFileSurvivesIff(m: Manifest, opts: Options, services: map<string, ComposeService>)
    requires Compilable(m, opts) && KeyedByName(PlanOf(m, opts).services, services)
    ensures forall s :: s in PlanOf(m, opts).services ==> s.name in services && services[s.name] == Rendered(s)
    ensures forall s :: s in PlanOf(m, opts).services ==> (Survives(services[s.name]) <==> NoDollar(Rendered(s)))
  {
    PlanNamesDistinct(m, opts);
    hide PlanOf, Compilable;
    FileSurvivesIff(PlanOf(m, opts).services, services);
  }

  lemma FileSurvivesIff(specs: seq<ServiceSpec>, services: map<string, ComposeService>)
    requires DistinctSpecs(specs) && KeyedByName(specs, services)
    ensures forall s :: s in specs ==> s.name in services && services[s.name] == Rendered(s)
    ensures forall s :: s in specs ==> (Survives(services[s.name]) <==> NoDollar(Rendered(s)))
  {
    hide Rendered, NoDollar, Survives;
    forall s | s in specs ensures s.name in services && services[s.name] == Rendered(s) {
      var i :| 0 <= i < |specs| && specs[i] == s;
    }
    forall s | s in specs ensures Survives(services[s.name]) <==> NoDollar(Rendered(s)) {
      ServiceSurvivesIff(Rendered(s));
    }
  }

  /** A static variable with a '$' in its value is such a value, for every app of the Stack. */
  lemma StaticDollarIsLost(s: ServiceSpec, name: string)
    requires name in s.env && '$' in s.env[name]
    ensures !Survives(Rendered(s))
  {
    assert HasValue(Rendered(s), s.env[name]);
    ServiceSurvivesIff(Rendered(s));
  }
}
