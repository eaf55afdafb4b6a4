/** Keeping minted secrets out of surfaced output (internal/runner/compose.go, scrubSecrets). */
module Scrub {
  import opened Text

  const MARKER := "[REDACTED]"

  /** strings.ReplaceAll for a non-empty old: left to right, without overlap. */
  function ReplaceAll(s: string, old_: string, new_: string): string
    requires old_ != ""
    decreases |s|
  {
    if s == "" then ""
    else if old_ <= s then new_ + ReplaceAll(s[|old_|..], old_, new_)
    else [s[0]] + ReplaceAll(s[1..], old_, new_)
  }

  predicate OccursAt(s: string, t: string, p: nat) { p <= |s| && t <= s[p..] }

  ghost predicate Occurs(s: string, t: string) { exists p: nat :: OccursAt(s, t, p) }

  /** The two strings have no character in common. */
  ghost predicate Apart(t: string, m: string) { forall i :: 0 <= i < |t| ==> t[i] !in m }

  /** A prefix of the result that avoids the new text was there before. */
  lemma {:induction false} PrefixWasThere(s: string, t: string, m: string, u: string)
    requires t != "" && m != "" && Apart(u, m) && u <= ReplaceAll(s, t, m)
    ensures u <= s
    decreases |s|
  {
    if u != "" && s != "" {
      var r := ReplaceAll(s, t, m);
      assert u[0] == r[0] && m[0] in m;
      assert t <= s ==> m <= r;
      var rest := ReplaceAll(s[1..], t, m);
      assert u[1..] <= rest by { assert ([s[0]] + rest)[1..] == rest; }
      PrefixWasThere(s[1..], t, m, u[1..]);
      assert u == [u[0]] + u[1..] && s == [s[0]] + s[1..];
    }
  }

  /** Whatever occurs in the result and avoids the new text occurred before, and it is not
      the old text. */
  lemma {:induction false} OccurredBefore(s: string, t: string, m: string, u: string, p: nat)
    requires t != "" && m != "" && u != "" && Apart(u, m) && OccursAt(ReplaceAll(s, t, m), u, p)
    ensures Occurs(s, u) && u != t
    decreases |s|
  {
    var r := ReplaceAll(s, t, m);
    assert s != "";
    if t <= s {
      var rest := ReplaceAll(s[|t|..], t, m);
      assert r[p] == r[p..][0] == u[0] && r[p] !in m;
      assert r[p..] == rest[p - |m|..];
      OccurredBefore(s[|t|..], t, m, u, p - |m|);
      var q: nat :| OccursAt(s[|t|..], u, q);
      assert s[|t|..][q..] == s[|t| + q..];
      assert OccursAt(s, u, |t| + q);
    } else if p == 0 {
      assert r[0..] == r && s[0..] == s;
      PrefixWasThere(s, t, m, u);
      assert OccursAt(s, u, 0);
    } else {
      var rest := ReplaceAll(s[1..], t, m);
      assert r[p..] == rest[p - 1..];
      OccurredBefore(s[1..], t, m, u, p - 1);
      var q: nat :| OccursAt(s[1..], u, q);
      assert s[1..][q..] == s[1 + q..];
      assert OccursAt(s, u, 1 + q);
    }
  }

  /** The pieces with a separator between each two. */
  function Glue(pieces: seq<string>, sep: string): string
    requires pieces != []
  {
    if |pieces| == 1 then pieces[0] else pieces[0] + sep + Glue(pieces[1..], sep)
  }

  /** Replacing exchanges the old text for the new and keeps every other character: both
      strings are the same pieces, glued by the one and by the other. */
  lemma {:induction false} ReplaceAllIsExact(s: string, t: string, m: string) returns (pieces: seq<string>)
    requires t != ""
    ensures pieces != [] && Glue(pieces, t) == s && Glue(pieces, m) == ReplaceAll(s, t, m)
    ensures forall p :: p in pieces ==> !Occurs(p, t)
    decreases |s|
  {
    if s == "" {
      pieces := [""];
    } else if t <= s {
      hide Glue, Occurs, ReplaceAll;
      var rest := ReplaceAllIsExact(s[|t|..], t, m);
      pieces := [""] + rest;
      GlueEmpty(rest, t);
      GlueEmpty(rest, m);
      ReplaceStep(s, t, m);
      NothingInNothing(t);
      assert t + s[|t|..] == s;
    } else {
      hide Glue, Occurs, ReplaceAll;
      var rest := ReplaceAllIsExact(s[1..], t, m);
      pieces := [[s[0]] + rest[0]] + rest[1..];
      GlueHead(s[0], rest, t);
      GlueHead(s[0], rest, m);
      FirstPiece(rest, t);
      HeadIsFree(s, rest[0], t);
      ReplaceStep(s, t, m);
      assert [s[0]] + s[1..] == s;
    }
  }

  lemma NothingInNothing(t: string)
    requires t != ""
    ensures !Occurs("", t)
  {
  }

  lemma GlueEmpty(rest: seq<string>, sep: string)
    requires rest != []
    ensures Glue([""] + rest, sep) == sep + Glue(rest, sep)
  {
    assert ([""] + rest)[1..] == rest;
    assert "" + sep == sep;
  }

  /** One more character in front completes no occurrence. */
  lemma HeadIsFree(s: string, piece: string, t: string)
    requires s != "" && t != "" && !(t <= s) && piece <= s[1..] && !Occurs(piece, t)
    ensures !Occurs([s[0]] + piece, t)
  {
    var head := [s[0]] + piece;
    assert head <= s;
    forall p: nat ensures !OccursAt(head, t, p) {
      if 0 < p <= |head| {
        assert head[p..] == piece[p - 1..];
        assert !OccursAt(piece, t, p - 1);
      }
    }
  }

  lemma ReplaceStep(s: string, t: string, m: string)
    requires s != "" && t != ""
    ensures ReplaceAll(s, t, m) == if t <= s then m + ReplaceAll(s[|t|..], t, m) else [s[0]] + ReplaceAll(s[1..], t, m)
  {
  }

  lemma FirstPiece(pieces: seq<string>, sep: string)
    requires pieces != []
    ensures pieces[0] <= Glue(pieces, sep)
  {
  }

  lemma GlueHead(c: char, rest: seq<string>, sep: string)
    requires rest != []
    ensures Glue([[c] + rest[0]] + rest[1..], sep) == [c] + Glue(rest, sep)
  {
    var pieces := [[c] + rest[0]] + rest[1..];
    assert pieces[1..] == rest[1..];
    if |rest| > 1 {
      assert [c] + rest[0] + sep + Glue(rest[1..], sep) == [c] + (rest[0] + sep + Glue(rest[1..], sep));
    }
  }

  /** A secret that shares no character with the marker does not occur. */
  ghost predicate HoldsNo(s: string, secret: string)
  {
    secret != "" && Apart(secret, MARKER) ==> !Occurs(s, secret)
  }

  /** No secret survives that shares no character with the marker, in whatever order the
      secrets come and however they overlap; and output that holds none comes back as it was. */
  method ScrubSecrets(output: string, secrets: seq<string>) returns (s: string)
    ensures forall k :: 0 <= k < |secrets| ==> HoldsNo(s, secrets[k])
    ensures (forall k :: 0 <= k < |secrets| ==> secrets[k] == "" || !Occurs(output, secrets[k])) ==> s == output
    ensures forall u :: u != "" && Apart(u, MARKER) && Occurs(s, u) ==> Occurs(output, u)
    ensures |secrets| == 1 && secrets[0] != "" ==> s == ReplaceAll(output, secrets[0], "[REDACTED]")
  {
    s := output;
    for i := 0 to |secrets|
      invariant forall k :: 0 <= k < i ==> HoldsNo(s, secrets[k])
      invariant (forall k :: 0 <= k < |secrets| ==> secrets[k] == "" || !Occurs(output, secrets[k])) ==> s == output
      invariant forall u :: u != "" && Apart(u, MARKER) && Occurs(s, u) ==> Occurs(output, u)
      invariant i == 0 ==> s == output
      invariant i == 1 && secrets[0] != "" ==> s == ReplaceAll(output, secrets[0], MARKER)
    {
      var secret := secrets[i];
      if secret == "" {
        continue;
      }
      ghost var before := s;
      s := ReplaceAll(s, secret, MARKER);
      forall u | u != "" && Apart(u, MARKER) && Occurs(s, u) ensures Occurs(before, u) && u != secret {
        var p: nat :| OccursAt(s, u, p);
        OccurredBefore(before, secret, MARKER, u, p);
      }
      if !Occurs(before, secret) {
        NothingToReplace(before, secret, MARKER);
      }
    }
  }

  lemma NothingToReplace(s: string, t: string, m: string)
    requires t != "" && !Occurs(s, t)
    ensures ReplaceAll(s, t, m) == s
    decreases |s|
  {
    if s != "" {
      assert s[0..] == s && !OccursAt(s, t, 0);
      forall p: nat ensures !OccursAt(s[1..], t, p) {
        if p <= |s[1..]| {
          assert s[1..][p..] == s[1 + p..];
          assert !OccursAt(s, t, 1 + p);
        }
      }
      NothingToReplace(s[1..], t, m);
    }
  }

  predicate Hex(c: char) { '0' <= c <= '9' || 'a' <= c <= 'f' }

  /** A minted password is hexadecimal, so the marker cannot complete one. */
  lemma HexIsApart(t: string)
    requires forall i :: 0 <= i < |t| ==> Hex(t[i])
    ensures Apart(t, MARKER)
  {
  }
}
