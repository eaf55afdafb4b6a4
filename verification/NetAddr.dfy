/** Go's net.SplitHostPort and net.JoinHostPort, branch by branch: both the Session
    registry and the egress proxy parse addresses with them. */
module NetAddr {
  import opened Text

  datatype HostPort = HostPort(host: string, port: string)

  /** The index of the first c in s, or -1. */
  function IndexOf(s: string, c: char): (i: int)
    ensures -1 <= i < |s|
    ensures i >= 0 ==> s[i] == c && c !in s[..i]
    ensures i < 0 ==> c !in s
  {
    if s == "" then -1
    else if s[0] == c then 0
    else
      var rest := IndexOf(s[1..], c);
      if rest < 0 then -1 else
        assert s[..rest + 1] == [s[0]] + s[1..][..rest];
        rest + 1
  }

  /** The index of the last c in s, or -1. */
  function LastIndexOf(s: string, c: char): (i: int)
    ensures -1 <= i < |s|
    ensures i >= 0 ==> s[i] == c && c !in s[i + 1..]
    ensures i < 0 ==> c !in s
  {
    if s == "" then -1
    else if s[|s| - 1] == c then |s| - 1
    else
      var before := LastIndexOf(s[..|s| - 1], c);
      assert s == s[..|s| - 1] + [s[|s| - 1]];
      if before < 0 then -1 else
        assert s[before + 1..] == s[..|s| - 1][before + 1..] + [s[|s| - 1]];
        before
  }

  function SplitHostPort(s: string): Option<HostPort>
  {
    var colon := LastIndexOf(s, ':');
    if colon < 0 then None                                             // missing port
    else if s[0] == '[' then
      var end := IndexOf(s, ']');
      if end < 0 || end + 1 != colon then None                         // no "]:" before the port
      else if '[' in s[1..] || ']' in s[end + 1..] then None           // stray bracket
      else Some(HostPort(s[1..end], s[colon + 1..]))
    else if ':' in s[..colon] then None                                // too many colons
    else if '[' in s || ']' in s then None                             // stray bracket
    else Some(HostPort(s[..colon], s[colon + 1..]))
  }

  function JoinHostPort(host: string, port: string): string
  {
    if ':' in host then "[" + host + "]:" + port else host + ":" + port
  }

  predicate PlainName(s: string) { ':' !in s && '[' !in s && ']' !in s }

  /** A host without colons or brackets and a port without them survive the round trip. */
  lemma SplitUndoesJoin(host: string, port: string)
    requires PlainName(host) && PlainName(port)
    ensures SplitHostPort(JoinHostPort(host, port)) == Some(HostPort(host, port))
  {
    var s := host + ":" + port;
    var colon := LastIndexOf(s, ':');
    assert s[|host|] == ':';
    assert colon == |host|;
    assert s[..colon] == host && s[colon + 1..] == port;
  }

  /** What the split returns is a cut of its input: an unbracketed host has no colon, and
      joining the two parts again gives the input back. */
  lemma JoinUndoesSplit(s: string)
    requires SplitHostPort(s).Some?
    requires s[0] != '[' || ':' in SplitHostPort(s).value.host
    ensures JoinHostPort(SplitHostPort(s).value.host, SplitHostPort(s).value.port) == s
  {
    var colon := LastIndexOf(s, ':');
    if s[0] == '[' {
      var end := IndexOf(s, ']');
      assert s == "[" + s[1..end] + "]:" + s[colon + 1..];
    } else {
      assert s == s[..colon] + ":" + s[colon + 1..];
    }
  }
}
