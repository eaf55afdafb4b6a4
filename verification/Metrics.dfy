/** Reading Traefik's request counters back into per-Session counts
    (internal/proxy/metrics.go): the service names minted by Routing are parsed out of a
    metric line's service label. */
module Metrics {
  import opened Text
  import opened Registry
  import opened Routing
  import E = Egress

  const LABEL := "service=\"s-"
  const COUNTER := "traefik_service_requests_total{"
  const U64: nat := 0x1_0000_0000_0000_0000

  // ---- service="s-([a-z2-7]+)-(?:ui|api-\d+)(?:@[^"]*)?" ----

  function IdRun(s: string): (n: nat)
    ensures n <= |s| && (forall i :: 0 <= i < n ==> IdChar(s[i])) && (n < |s| ==> !IdChar(s[n]))
  {
    if s != "" && IdChar(s[0]) then 1 + IdRun(s[1..]) else 0
  }

  function DigitRun(s: string): (n: nat)
    ensures n <= |s| && (forall i :: 0 <= i < n ==> IsDigit(s[i])) && (n < |s| ==> !IsDigit(s[n]))
  {
    if s != "" && IsDigit(s[0]) then 1 + DigitRun(s[1..]) else 0
  }

  /** The optional provider suffix and the closing quote. */
  predicate Closes(s: string)
  {
    s != "" && (s[0] == '"' || (s[0] == '@' && '"' in s[1..]))
  }

  predicate ServiceTail(s: string)
  {
    || (HasPrefix(s, "-ui") && Closes(s[3..]))
    || (HasPrefix(s, "-api-") && DigitRun(s[5..]) > 0 && Closes(s[5..][DigitRun(s[5..])..]))
  }

  /** The id, when the expression matches at the start of s. Greedy runs lose nothing: what
      follows a run is never one of its characters. */
  function MatchHere(s: string): Option<string>
  {
    if !HasPrefix(s, LABEL) then None
    else
      var rest := s[|LABEL|..];
      var n := IdRun(rest);
      if n > 0 && ServiceTail(rest[n..]) then Some(rest[..n]) else None
  }

  /** The leftmost match. */
  function FindService(line: string): Option<string>
  {
    if line == "" then None
    else if MatchHere(line).Some? then MatchHere(line)
    else FindService(line[1..])
  }

  lemma IdRunOf(id: string, rest: string)
    requires forall i :: 0 <= i < |id| ==> IdChar(id[i])
    requires rest != "" && !IdChar(rest[0])
    ensures IdRun(id + rest) == |id|
  {
    var s := id + rest;
    assert s[|id|] == rest[0];
    forall i | 0 <= i < |id| ensures IdChar(s[i]) { assert s[i] == id[i]; }
  }

  lemma DigitRunOf(digits: string, rest: string)
    requires AllDigits(digits) && rest != "" && !IsDigit(rest[0])
    ensures DigitRun(digits + rest) == |digits|
  {
    var s := digits + rest;
    assert s[|digits|] == rest[0];
    forall i | 0 <= i < |digits| ensures IsDigit(s[i]) { assert s[i] == digits[i]; }
  }

  lemma UiTail(suffix: string)
    requires Closes(suffix)
    ensures ServiceTail("-ui" + suffix)
  {
    assert ("-ui" + suffix)[3..] == suffix;
  }

  lemma ApiTail(i: nat, suffix: string)
    requires Closes(suffix)
    ensures ServiceTail("-api-" + Decimal(i) + suffix)
  {
    var s := "-api-" + Decimal(i) + suffix;
    assert s[5..] == Decimal(i) + suffix;
    DigitRunOf(Decimal(i), suffix);
    assert s[5..][|Decimal(i)|..] == suffix;
  }

  lemma MatchMinted(id: string, tail: string)
    requires SessionId(id) && tail != "" && tail[0] == '-' && ServiceTail(tail)
    ensures MatchHere(LABEL + id + tail) == Some(id)
  {
    var s := LABEL + id + tail;
    assert s[|LABEL|..] == id + tail;
    IdRunOf(id, tail);
    assert (id + tail)[|id|..] == tail && (id + tail)[..|id|] == id;
  }

  lemma {:induction false} FindAfter(before: string, s: string)
    requires s != "" && MatchHere(s).Some?
    requires forall i :: 0 <= i < |before| ==> !HasPrefix((before + s)[i..], LABEL)
    ensures FindService(before + s) == MatchHere(s)
  {
    var line := before + s;
    if before == "" {
      assert line == s;
    } else {
      assert line[0..] == line;
      assert line[1..] == before[1..] + s;
      forall i | 0 <= i < |before[1..]| ensures !HasPrefix((before[1..] + s)[i..], LABEL) {
        assert (before[1..] + s)[i..] == line[i + 1..];
      }
      FindAfter(before[1..], s);
    }
  }

  /** A line whose first Session label carries a service name minted for id, with or without
      a provider suffix, is attributed to id: as its UI, */
  lemma UiNameLeadsBack(before: string, id: string, suffix: string)
    requires SessionId(id) && Closes(suffix)
    requires forall k :: 0 <= k < |before| ==> !HasPrefix((before + (LABEL[..9] + UiKey(id) + suffix))[k..], LABEL)
    ensures FindService(before + (LABEL[..9] + UiKey(id) + suffix)) == Some(id)
  {
    var tail := "-ui" + suffix;
    UiTail(suffix);
    MatchMinted(id, tail);
    UiLabel(id, suffix);
    FindAfter(before, LABEL + id + tail);
  }

  /** or as its i-th API. */
  lemma ApiNameLeadsBack(before: string, id: string, i: nat, suffix: string)
    requires SessionId(id) && Closes(suffix)
    requires forall k :: 0 <= k < |before| ==> !HasPrefix((before + (LABEL[..9] + ApiKey(id, i) + suffix))[k..], LABEL)
    ensures FindService(before + (LABEL[..9] + ApiKey(id, i) + suffix)) == Some(id)
  {
    var tail := "-api-" + Decimal(i) + suffix;
    ApiTail(i, suffix);
    MatchMinted(id, tail);
    ApiLabel(id, i, suffix);
    FindAfter(before, LABEL + id + tail);
  }

  lemma UiLabel(id: string, suffix: string)
    ensures LABEL[..9] + UiKey(id) + suffix == LABEL + id + ("-ui" + suffix)
  {
    assert LABEL == LABEL[..9] + "s-";
  }

  lemma ApiLabel(id: string, i: nat, suffix: string)
    ensures LABEL[..9] + ApiKey(id, i) + suffix == LABEL + id + ("-api-" + Decimal(i) + suffix)
  {
    assert LABEL == LABEL[..9] + "s-";
  }

  // ---- Sums ----

  /** The last whitespace-separated field. */
  function LastField(line: string): string
    decreases |line|
  {
    if line == "" then ""
    else if E.IsSpace(line[|line| - 1]) then LastField(line[..|line| - 1])
    else LastWord(line)
  }

  function LastWord(line: string): string
  {
    if line == "" || E.IsSpace(line[|line| - 1]) then "" else LastWord(line[..|line| - 1]) + [line[|line| - 1]]
  }

  /** With blanks behind it or not, the last word after a blank is the last field. */
  lemma {:induction false} LastFieldIs(front: string, word: string, blanks: string)
    requires word != "" && forall i :: 0 <= i < |word| ==> !E.IsSpace(word[i])
    requires front == "" || E.IsSpace(front[|front| - 1])
    requires forall i :: 0 <= i < |blanks| ==> E.IsSpace(blanks[i])
    ensures LastField(front + word + blanks) == word
  {
    var line := front + word + blanks;
    if blanks != "" {
      LastFieldIs(front, word, blanks[..|blanks| - 1]);
      assert line[..|line| - 1] == front + word + blanks[..|blanks| - 1];
    } else {
      assert line == front + word;
      LastWordIs(front, word);
    }
  }

  lemma {:induction false} LastWordIs(front: string, word: string)
    requires forall i :: 0 <= i < |word| ==> !E.IsSpace(word[i])
    requires front == "" || E.IsSpace(front[|front| - 1])
    ensures LastWord(front + word) == word
  {
    var line := front + word;
    if word != "" {
      LastWordIs(front, word[..|word| - 1]);
      assert line[..|line| - 1] == front + word[..|word| - 1] && line[|line| - 1] == word[|word| - 1];
    } else {
      assert line == front;
    }
  }

  /** What a line adds to whom. parse is ParseFloat followed by the conversion to uint64. */
  function Sample(parse: string -> Option<nat>, line: string): Option<(string, nat)>
  {
    if !HasPrefix(line, COUNTER) || FindService(line).None? then None
    else
      match parse(LastField(line))
      case None => None
      case Some(v) => Some((FindService(line).value, v))
  }

  /** A line of the counter, labelled with a service of the Session, adds its value to the Session. */
  lemma SampleOfALine(parse: string -> Option<nat>, line: string, labels: string, id: string, api: Option<nat>,
                      front: string, word: string)
    requires SessionId(id) && word != "" && forall i :: 0 <= i < |word| ==> !E.IsSpace(word[i])
    requires front != "" && E.IsSpace(front[|front| - 1]) && Closes(front + word)
    requires line == ("traefik_service_requests_total{" + labels) + Labelled(id, api) + (front + word)
    requires forall k :: 0 <= k < |"traefik_service_requests_total{" + labels| ==> !HasPrefix(line[k..], LABEL)
    ensures Sample(parse, line) == match parse(word) case None => None case Some(v) => Some((id, v))
  {
    var head := "traefik_service_requests_total{" + labels;
    StartsAs("traefik_service_requests_total{", labels, Labelled(id, api), front + word);
    LabelLeadsBack(line, head, id, api, front + word);
    EndsIn(head + Labelled(id, api), front, word);
    hide FindService, Labelled, Closes, LastField, HasPrefix;
  }

  lemma StartsAs(a: string, b: string, c: string, d: string)
    ensures HasPrefix((a + b) + c + d, a)
  {
    assert (a + b) + c + d == a + (b + c + d);
  }

  lemma EndsIn(head: string, front: string, word: string)
    requires word != "" && forall i :: 0 <= i < |word| ==> !E.IsSpace(word[i])
    requires front != "" && E.IsSpace(front[|front| - 1])
    ensures LastField(head + (front + word)) == word
  {
    LastFieldIs(head + front, word, "");
    assert head + (front + word) == (head + front) + word + "";
  }

  /** The start of the label of the Session's UI, or of one of its APIs. */
  function Labelled(id: string, api: Option<nat>): string
  {
    match api
    case None => "service=\"s-" + id + "-ui"
    case Some(i) => "service=\"s-" + id + "-api-" + Decimal(i)
  }

  lemma LabelLeadsBack(line: string, head: string, id: string, api: Option<nat>, tail: string)
    requires SessionId(id) && Closes(tail) && line == head + Labelled(id, api) + tail
    requires forall k :: 0 <= k < |head| ==> !HasPrefix(line[k..], LABEL)
    ensures FindService(line) == Some(id)
  {
    LabelText(id, api);
    hide FindService, Labelled, UiKey, ApiKey, Closes, HasPrefix;
    if api.None? {
      assert line == head + (LABEL[..9] + UiKey(id) + tail);
      UiLine(line, head, id, tail);
    } else {
      assert line == head + (LABEL[..9] + ApiKey(id, api.value) + tail);
      ApiLine(line, head, id, api.value, tail);
    }
  }

  lemma UiLine(line: string, before: string, id: string, suffix: string)
    requires SessionId(id) && Closes(suffix) && line == before + (LABEL[..9] + UiKey(id) + suffix)
    requires forall k :: 0 <= k < |before| ==> !HasPrefix(line[k..], LABEL)
    ensures FindService(line) == Some(id)
  {
    UiNameLeadsBack(before, id, suffix);
  }

  lemma ApiLine(line: string, before: string, id: string, i: nat, suffix: string)
    requires SessionId(id) && Closes(suffix) && line == before + (LABEL[..9] + ApiKey(id, i) + suffix)
    requires forall k :: 0 <= k < |before| ==> !HasPrefix(line[k..], LABEL)
    ensures FindService(line) == Some(id)
  {
    ApiNameLeadsBack(before, id, i, suffix);
  }

  lemma LabelText(id: string, api: Option<nat>)
    ensures Labelled(id, api) == LABEL[..9] + if api.None? then UiKey(id) else ApiKey(id, api.value)
  {
    assert LABEL[..9] == "service=\"";
    match api
    case None => assert "service=\"s-" + id + "-ui" == "service=\"" + ("s-" + id + "-ui");
    case Some(i) =>
      assert "service=\"s-" + id + "-api-" + Decimal(i) == "service=\"" + ("s-" + id + "-api-" + Decimal(i));
  }

  /** No other line adds anything: one that is not the counter's, that has no Session's label, or
      whose last field is no number. */
  lemma OnlyCounterLinesCount(parse: string -> Option<nat>, line: string)
    ensures Sample(parse, line).Some? ==>
              && HasPrefix(line, "traefik_service_requests_total{") && parse(LastField(line)).Some?
              && var id := Sample(parse, line).value.0;
                 exists p :: 0 <= p <= |line| && HasPrefix(line[p..], "service=\"s-" + id + "-")
  {
    if Sample(parse, line).Some? {
      var p := FoundThere(line);
    }
  }

  lemma {:induction false} FoundThere(line: string) returns (p: nat)
    requires FindService(line).Some?
    ensures p <= |line| && HasPrefix(line[p..], "service=\"s-" + FindService(line).value + "-")
  {
    if MatchHere(line).Some? {
      p := 0;
      var rest := line[|LABEL|..];
      var n := IdRun(rest);
      assert line[0..] == line == LABEL + rest[..n] + rest[n..];
      assert rest[n] == '-';
      assert line[..|LABEL| + n + 1] == LABEL + rest[..n] + "-";
    } else {
      var at := FoundThere(line[1..]);
      p := at + 1;
      assert line[p..] == line[1..][at..];
    }
  }

  function Of(sample: Option<(string, nat)>, id: string): nat
  {
    if sample.Some? && sample.value.0 == id then sample.value.1 else 0
  }

  /** The sum of a Session's samples. */
  function SumOf(parse: string -> Option<nat>, lines: seq<string>, id: string): nat
  {
    if lines == [] then 0
    else SumOf(parse, lines[..|lines| - 1], id) + Of(Sample(parse, lines[|lines| - 1]), id)
  }

  function SumAll(parse: string -> Option<nat>, lines: seq<string>): nat
  {
    if lines == [] then 0
    else
      var s := Sample(parse, lines[|lines| - 1]);
      SumAll(parse, lines[..|lines| - 1]) + if s.Some? then s.value.1 else 0
  }

  function Seen(parse: string -> Option<nat>, lines: seq<string>): set<string>
  {
    if lines == [] then {}
    else
      var s := Sample(parse, lines[|lines| - 1]);
      Seen(parse, lines[..|lines| - 1]) + if s.Some? then {s.value.0} else {}
  }

  ghost predicate Tallies(parse: string -> Option<nat>, lines: seq<string>, counts: map<string, nat>)
  {
    && counts.Keys == Seen(parse, lines)
    && forall id :: id in counts ==> counts[id] == SumOf(parse, lines, id) % U64
  }

  function Tally(counts: map<string, nat>, sample: Option<(string, nat)>): map<string, nat>
  {
    match sample
    case None => counts
    case Some((id, v)) => counts[id := ((if id in counts then counts[id] else 0) + v) % U64]
  }

  lemma {:induction false} UnseenIsZero(parse: string -> Option<nat>, lines: seq<string>, id: string)
    requires id !in Seen(parse, lines)
    ensures SumOf(parse, lines, id) == 0
  {
    if lines != [] {
      UnseenIsZero(parse, lines[..|lines| - 1], id);
    }
  }

  lemma TallyNext(parse: string -> Option<nat>, lines: seq<string>, line: string, counts: map<string, nat>)
    requires Tallies(parse, lines, counts)
    ensures Tallies(parse, lines + [line], Tally(counts, Sample(parse, line)))
  {
    hide Sample;
    var now, sample := lines + [line], Sample(parse, line);
    assert now[..|lines|] == lines && now[|lines|] == line;
    if sample.Some? {
      var (id, v) := sample.value;
      if id !in counts {
        UnseenIsZero(parse, lines, id);
      }
      AddWraps(SumOf(parse, lines, id), v);
    }
  }

  lemma AddWraps(x: nat, v: nat)
    ensures (x % U64 + v) % U64 == (x + v) % U64
  {
  }

  /** Each Session seen gets the sum of its samples, as a uint64. */
  method ParseCounts(parse: string -> Option<nat>, lines: seq<string>, readFailed: bool)
    returns (r: Option<map<string, nat>>)
    ensures r.None? <==> readFailed
    ensures r.Some? ==> Tallies(parse, lines, r.value)
    ensures r.Some? ==> forall id :: id in r.value ==>
              r.value[id] == SumOf(parse, lines, id) % 0x1_0000_0000_0000_0000
  {
    var counts: map<string, nat> := map[];
    assert Tallies(parse, lines[..0], counts);
    hide Tallies, FindService, LastField, HasPrefix;
    for i := 0 to |lines|
      invariant Tallies(parse, lines[..i], counts)
    {
      assert lines[..i + 1] == lines[..i] + [lines[i]];
      TallyNext(parse, lines[..i], lines[i], counts);
      counts := CountLine(parse, lines[i], counts);
    }
    assert lines[..|lines|] == lines;
    if readFailed {
      return None;
    }
    return Some(counts);
  }

  /** One line of the scan. */
  method CountLine(parse: string -> Option<nat>, line: string, counts: map<string, nat>)
    returns (next: map<string, nat>)
    ensures next == Tally(counts, Sample(parse, line))
  {
    next := counts;
    if !HasPrefix(line, COUNTER) {
      return;
    }
    var id := FindService(line);
    if id.None? {
      return;
    }
    var v := parse(LastField(line));
    if v.None? {
      return;
    }
    var soFar := if id.value in counts then counts[id.value] else 0;
    next := counts[id.value := (soFar + v.value) % U64];
  }

  ghost function Total(ids: set<string>, f: map<string, nat>): nat
    requires ids <= f.Keys
  {
    if ids == {} then 0 else var id :| id in ids; f[id] + Total(ids - {id}, f)
  }

  /** Unrelated lines change nothing, wherever they stand. */
  function Counted(parse: string -> Option<nat>, lines: seq<string>): seq<string>
  {
    if lines == [] then []
    else
      var rest, last := Counted(parse, lines[..|lines| - 1]), lines[|lines| - 1];
      if Sample(parse, last).Some? then rest + [last] else rest
  }

  lemma {:induction false} NoiseIsIgnored(parse: string -> Option<nat>, lines: seq<string>, id: string)
    ensures SumOf(parse, Counted(parse, lines), id) == SumOf(parse, lines, id)
    ensures Seen(parse, Counted(parse, lines)) == Seen(parse, lines)
  {
    if lines != [] {
      var rest, last := lines[..|lines| - 1], lines[|lines| - 1];
      NoiseIsIgnored(parse, rest, id);
      var kept := Counted(parse, rest);
      if Sample(parse, last).Some? {
        assert (kept + [last])[..|kept|] == kept;
      }
    }
  }

  ghost function SumOver(ids: set<string>, parse: string -> Option<nat>, lines: seq<string>): nat
  {
    if ids == {} then 0 else var id :| id in ids; SumOf(parse, lines, id) + SumOver(ids - {id}, parse, lines)
  }

  /** The sum does not depend on which Session is taken out first. */
  lemma {:induction false} SumOverAny(ids: set<string>, parse: string -> Option<nat>, lines: seq<string>, id: string)
    requires id in ids
    ensures SumOver(ids, parse, lines) == SumOf(parse, lines, id) + SumOver(ids - {id}, parse, lines)
    decreases |ids|
  {
    var first :| first in ids
      && SumOver(ids, parse, lines) == SumOf(parse, lines, first) + SumOver(ids - {first}, parse, lines);
    if first != id {
      SumOverAny(ids - {first}, parse, lines, id);
      SumOverAny(ids - {id}, parse, lines, first);
      assert ids - {first} - {id} == ids - {id} - {first};
    }
  }

  lemma {:induction false} SumOverNext(ids: set<string>, parse: string -> Option<nat>, lines: seq<string>, last: string)
    ensures var s := Sample(parse, last);
            SumOver(ids, parse, lines + [last])
              == SumOver(ids, parse, lines) + if s.Some? && s.value.0 in ids then s.value.1 else 0
  {
    if ids != {} {
      var id :| id in ids;
      SumOverAny(ids, parse, lines, id);
      SumOverAny(ids, parse, lines + [last], id);
      SumOverNext(ids - {id}, parse, lines, last);
      assert (lines + [last])[..|lines|] == lines;
    }
  }

  /** Nothing is counted twice or to nobody: over any Sessions that include all those seen,
      the sums add up to the sum over the matching lines. */
  lemma {:induction false} SumsAreConserved(ids: set<string>, parse: string -> Option<nat>, lines: seq<string>)
    requires Seen(parse, lines) <= ids
    ensures SumOver(ids, parse, lines) == SumAll(parse, lines)
  {
    if lines == [] {
      NoLinesNoSum(ids, parse);
    } else {
      var rest, last := lines[..|lines| - 1], lines[|lines| - 1];
      SumsAreConserved(ids, parse, rest);
      SumOverNext(ids, parse, rest, last);
      assert lines == rest + [last];
    }
  }

  lemma {:induction false} NoLinesNoSum(ids: set<string>, parse: string -> Option<nat>)
    ensures SumOver(ids, parse, []) == 0
  {
    if ids != {} {
      var id :| id in ids;
      SumOverAny(ids, parse, [], id);
      NoLinesNoSum(ids - {id}, parse);
    }
  }

  /** The reported uint64 counts add up to that same sum, up to whole wraps of the counters. */
  lemma CountsAreConserved(parse: string -> Option<nat>, lines: seq<string>, counts: map<string, nat>)
    returns (wraps: nat)
    requires Tallies(parse, lines, counts)
    ensures Total(counts.Keys, counts) + wraps * U64 == SumAll(parse, lines)
  {
    SumsAreConserved(counts.Keys, parse, lines);
    wraps := TotalUpToWraps(counts.Keys, parse, lines, counts);
  }

  lemma {:induction false} TotalUpToWraps(ids: set<string>, parse: string -> Option<nat>, lines: seq<string>,
                                          counts: map<string, nat>)
    returns (wraps: nat)
    requires ids <= counts.Keys
    requires forall id :: id in counts ==> counts[id] == SumOf(parse, lines, id) % U64
    ensures Total(ids, counts) + wraps * U64 == SumOver(ids, parse, lines)
  {
    wraps := 0;
    if ids != {} {
      var id :| id in ids && Total(ids, counts) == counts[id] + Total(ids - {id}, counts);
      SumOverAny(ids, parse, lines, id);
      var rest := TotalUpToWraps(ids - {id}, parse, lines, counts);
      wraps := rest + SumOf(parse, lines, id) / U64;
    }
  }
}
