/** The projects table and its guarded updates (internal/store/projects.go). Every method is
    one SQL statement, so one atomic step; Step says what it does to the rows. */
module Projects {
  import opened Text
  import opened Manifest

  datatype BuildState = Idle | Building | Failed | Published

  type Commits = map<string, string>

  /** A row; the nullable columns are options. startedAt is a time in whole nanoseconds. */
  datatype Row = Row(
    owner: int, name: string, manifest: Manifest, published: bool, commit: Option<string>,
    serviceCommits: Option<Commits>, buildState: BuildState, buildError: Option<string>,
    startedAt: Option<int>, slug: Option<string>)

  type Rows = map<string, Row>

  datatype Error = NotFound | NameTaken | SlugTaken | InProgress

  // ---- Ids ----

  predicate HexDigit(c: char) { '0' <= c <= '9' || 'a' <= c <= 'f' || 'A' <= c <= 'F' }

  /** The canonical 8-4-4-4-12 form, in either case. */
  predicate IsUuid(id: string)
  {
    && |id| == 36
    && forall i :: 0 <= i < 36 ==> if i in {8, 13, 18, 23} then id[i] == '-' else HexDigit(id[i])
  }

  /** The key column holds a uuid, whose letters have no case. */
  function Key(id: string): string { Lower(id) }

  // ---- What each statement does ----

  datatype Op =
    | Create(key: string, owner: int, name: string, manifest: Manifest)
    | Start(owner: int, id: string, now: int)
    | MarkFailed(owner: int, id: string, error: string)
    | Publish(owner: int, id: string, commit: string, serviceCommits: Option<Commits>)
    | Update(owner: int, id: string, name: string, manifest: Manifest)
    | Reclaim(perService: int, grace: int, now: int)
    | SetSlug(owner: int, id: string, slug: string)

  predicate Owns(rows: Rows, owner: int, id: string)
  {
    IsUuid(id) && Key(id) in rows && rows[Key(id)].owner == owner
  }

  /** The row of that uuid, in whatever case it is spelled, is the Owner's. */
  ghost predicate OwnedBy(rows: Rows, owner: int, id: string)
  {
    IsUuid(id) && Key(id) in rows && rows[Key(id)].owner == owner
  }

  /** Building since before this time. */
  predicate Stranded(row: Row, before: int)
  {
    row.buildState == Building && row.startedAt.Some? && row.startedAt.value < before
  }

  /** Five groups of hexadecimal digits with dashes between. */
  lemma UuidText(a: string, b: string, c: string, d: string, e: string)
    requires |a| == 8 && |b| == |c| == |d| == 4 && |e| == 12
    ensures IsUuid(a + "-" + b + "-" + c + "-" + d + "-" + e) <==>
              forall x :: x in a + b + c + d + e ==> x in "0123456789abcdefABCDEF"
  {
    var id, all := a + "-" + b + "-" + c + "-" + d + "-" + e, a + b + c + d + e;
    forall x ensures HexDigit(x) <==> x in "0123456789abcdefABCDEF" { HexDigitsAre(x); }
    hide HexDigit;
    assert id[8] == id[13] == id[18] == id[23] == '-';
    assert forall i :: 0 <= i < 8 ==> id[i] == all[i];
    assert forall i :: 9 <= i < 13 ==> id[i] == all[i - 1];
    assert forall i :: 14 <= i < 18 ==> id[i] == all[i - 2];
    assert forall i :: 19 <= i < 23 ==> id[i] == all[i - 3];
    assert forall i :: 24 <= i < 36 ==> id[i] == all[i - 4];
    DigitsElsewhere(id, all);
  }

  /** all is id without its dashes. */
  lemma DigitsElsewhere(id: string, all: string)
    requires |id| == 36 && |all| == 32 && id[8] == id[13] == id[18] == id[23] == '-'
    requires forall i :: 0 <= i < 8 ==> id[i] == all[i]
    requires forall i :: 9 <= i < 13 ==> id[i] == all[i - 1]
    requires forall i :: 14 <= i < 18 ==> id[i] == all[i - 2]
    requires forall i :: 19 <= i < 23 ==> id[i] == all[i - 3]
    requires forall i :: 24 <= i < 36 ==> id[i] == all[i - 4]
    ensures IsUuid(id) <==> forall x :: x in all ==> HexDigit(x)
  {
    hide HexDigit;
    if IsUuid(id) {
      forall j | 0 <= j < 32 ensures HexDigit(all[j]) {
        var i := if j < 8 then j else if j < 12 then j + 1 else if j < 16 then j + 2
                 else if j < 20 then j + 3 else j + 4;
        assert id[i] == all[j];
      }
    }
    if forall x :: x in all ==> HexDigit(x) {
      forall i | 0 <= i < 36 && i !in {8, 13, 18, 23} ensures HexDigit(id[i]) {
        var j := if i < 8 then i else if i < 13 then i - 1 else if i < 18 then i - 2
                 else if i < 23 then i - 3 else i - 4;
        assert all[j] == id[i] && all[j] in all;
      }
    }
  }

  lemma HexDigitsAre(x: char)
    ensures HexDigit(x) <==> x in "0123456789abcdefABCDEF"
  {
    var digits := "0123456789abcdefABCDEF";
    assert digits[0] == '0' && digits[1] == '1' && digits[2] == '2' && digits[3] == '3' && digits[4] == '4';
    assert digits[5] == '5' && digits[6] == '6' && digits[7] == '7' && digits[8] == '8' && digits[9] == '9';
    assert digits[10] == 'a' && digits[11] == 'b' && digits[12] == 'c' && digits[13] == 'd' && digits[14] == 'e';
    assert digits[15] == 'f' && digits[16] == 'A' && digits[17] == 'B' && digits[18] == 'C' && digits[19] == 'D';
    assert digits[20] == 'E' && digits[21] == 'F';
  }

  /** A key is its id with every capital made small, so case makes no difference and nothing else does. */
  lemma KeyFoldsCase(id: string, other: string)
    ensures Key(id) == Key(other) <==>
              |id| == |other| && forall i :: 0 <= i < |id| ==>
                || id[i] == other[i]
                || ('A' <= id[i] <= 'Z' && other[i] as int == id[i] as int + 32)
                || ('A' <= other[i] <= 'Z' && id[i] as int == other[i] as int + 32)
  {
    assert forall i :: 0 <= i < |id| ==> Key(id)[i] == LowerChar(id[i]);
    assert forall i :: 0 <= i < |other| ==> Key(other)[i] == LowerChar(other[i]);
    if Key(id) == Key(other) {
      forall i | 0 <= i < |id| ensures LowerChar(id[i]) == LowerChar(other[i]) {
        assert Key(id)[i] == Key(other)[i];
      }
    }
  }

  predicate NameUsed(rows: Rows, owner: int, name: string, except_: string)
  {
    exists k :: k in rows && k != except_ && rows[k].owner == owner && rows[k].name == name
  }

  predicate SlugUsed(rows: Rows, owner: int, slug: string, except_: string)
  {
    exists k :: k in rows && k != except_ && rows[k].owner == owner && rows[k].slug == Some(slug)
  }

  /** How long a build of this manifest may take before it counts as stranded. */
  function Window(m: Manifest, perService: int, grace: int): int
  {
    (|m.services| + 1) * perService + grace
  }

  predicate Stale(row: Row, perService: int, grace: int, now: int)
  {
    && row.buildState == Building && row.startedAt.Some?
    && row.startedAt.value < now - Window(row.manifest, perService, grace)
  }

  const INTERRUPTED := "the build did not finish (the server restarted or the build was interrupted) — please retry"

  function Edited(row: Row, name: string, manifest: Manifest): Row
  {
    if manifest == row.manifest then row.(name := name)
    else
      row.(name := name, manifest := manifest, published := false, commit := None, serviceCommits := None,
           buildState := Idle, buildError := None)
  }

  function SlugOf(slug: string): Option<string> { if slug == "" then None else Some(slug) }

  function Failure(rows: Rows, op: Op): Option<Error>
  {
    match op
    case Create(_, owner, name, _) => if NameUsed(rows, owner, name, "") then Some(NameTaken) else None
    case Start(owner, id, _) =>
      if !Owns(rows, owner, id) then Some(NotFound)
      else if rows[Key(id)].buildState == Building then Some(InProgress) else None
    case MarkFailed(owner, id, _) => if Owns(rows, owner, id) then None else Some(NotFound)
    case Publish(owner, id, _, _) => if Owns(rows, owner, id) then None else Some(NotFound)
    case Update(owner, id, name, _) =>
      if !Owns(rows, owner, id) then Some(NotFound)
      else if NameUsed(rows, owner, name, Key(id)) then Some(NameTaken) else None
    case Reclaim(_, _, _) => None
    case SetSlug(owner, id, slug) =>
      if !Owns(rows, owner, id) then Some(NotFound)
      else if slug != "" && SlugUsed(rows, owner, slug, Key(id)) then Some(SlugTaken) else None
  }

  function Reclaimed(row: Row, perService: int, grace: int, now: int): Row
  {
    if Stale(row, perService, grace, now) then row.(buildState := Failed, buildError := Some(INTERRUPTED)) else row
  }

  /** The rows afterwards; a failing statement leaves them alone. */
  function Step(rows: Rows, op: Op): Rows
  {
    if Failure(rows, op).Some? then rows
    else
      match op
      case Create(key, owner, name, m) => rows[key := Row(owner, name, m, false, None, None, Idle, None, None, None)]
      case Start(_, id, now) =>
        rows[Key(id) := rows[Key(id)].(buildState := Building, buildError := None, startedAt := Some(now))]
      case MarkFailed(_, id, error) => rows[Key(id) := rows[Key(id)].(buildState := Failed, buildError := Some(error))]
      case Publish(_, id, commit, svc) =>
        rows[Key(id) := rows[Key(id)].(
          published := true, buildState := Published, buildError := None, commit := Some(commit),
            serviceCommits := svc)]
      case Update(_, id, name, m) => rows[Key(id) := Edited(rows[Key(id)], name, m)]
      case Reclaim(perService, grace, now) => map k | k in rows :: Reclaimed(rows[k], perService, grace, now)
      case SetSlug(_, id, slug) => rows[Key(id) := rows[Key(id)].(slug := SlugOf(slug))]
  }

  /** gen_random_uuid yields a new, lower-case uuid. */
  predicate Admissible(rows: Rows, op: Op)
  {
    op.Create? ==> IsUuid(op.key) && Key(op.key) == op.key && op.key !in rows
  }

  // ---- The table ----

  class Store {
    var rows: Rows

    constructor ()
      ensures rows == map[]
    {
      rows := map[];
    }

    method CreateProject(key: string, owner: int, name: string, manifest: Manifest) returns (error: Option<Error>)
      requires Admissible(rows, Create(key, owner, name, manifest))
      modifies this
      ensures "" !in old(rows) ==>
                error == if exists k :: k in old(rows) && old(rows)[k].owner == owner && old(rows)[k].name == name
                         then Some(NameTaken) else None
      ensures error.None? ==>
                && key in rows && rows[key].owner == owner && rows[key].name == name && rows[key].manifest == manifest
                && !rows[key].published && rows[key].buildState == Idle
                && rows[key].commit.None? && rows[key].serviceCommits.None? && rows[key].buildError.None?
                && rows[key].startedAt.None? && rows[key].slug.None?
      ensures rows == Step(old(rows), Create(key, owner, name, manifest))
      ensures error == Failure(old(rows), Create(key, owner, name, manifest))
    {
      if NameUsed(rows, owner, name, "") {
        return Some(NameTaken);
      }
      rows := rows[key := Row(owner, name, manifest, false, None, None, Idle, None, None, None)];
      return None;
    }

    method GetOwnerProject(owner: int, id: string) returns (p: Option<Row>)
      ensures p == if Owns(rows, owner, id) then Some(rows[Key(id)]) else None
    {
      if !IsUuid(id) || Key(id) !in rows || rows[Key(id)].owner != owner {
        return None;
      }
      return Some(rows[Key(id)]);
    }

    method GetPublishedProject(id: string) returns (p: Option<Row>)
      ensures p == Playable(rows, id)
      ensures p.Some? <==> IsUuid(id) && Key(id) in rows && rows[Key(id)].published
      ensures p.Some? ==> p.value == rows[Key(id)]
    {
      if !IsUuid(id) || Key(id) !in rows || !rows[Key(id)].published {
        return None;
      }
      return Some(rows[Key(id)]);
    }

    /** Only from a row that is not already building. */
    method StartBuild(owner: int, id: string, now: int) returns (error: Option<Error>)
      modifies this
      ensures error == if !OwnedBy(old(rows), owner, id) then Some(NotFound)
                       else if old(rows)[Key(id)].buildState == Building then Some(InProgress) else None
      ensures error.None? ==>
                && Key(id) in rows && Key(id) in old(rows)
                && rows[Key(id)]
                   == old(rows)[Key(id)].(buildState := Building, buildError := None, startedAt := Some(now))
      ensures rows == Step(old(rows), Start(owner, id, now)) && error == Failure(old(rows), Start(owner, id, now))
    {
      if IsUuid(id) && Key(id) in rows && rows[Key(id)].owner == owner && rows[Key(id)].buildState != Building {
        var row := rows[Key(id)];
        row := row.(buildState := Building, buildError := None);
        row := row.(startedAt := Some(now));
        rows := rows[Key(id) := row];
        return None;
      }
      var p := GetOwnerProject(owner, id);
      return if p.None? then Some(NotFound) else Some(InProgress);
    }

    method MarkBuildFailed(owner: int, id: string, buildError: string) returns (error: Option<Error>)
      modifies this
      ensures error == if OwnedBy(old(rows), owner, id) then None else Some(NotFound)
      ensures error.None? ==>
                && Key(id) in rows && Key(id) in old(rows)
                && rows[Key(id)] == old(rows)[Key(id)].(buildState := Failed, buildError := Some(buildError))
      ensures rows == Step(old(rows), MarkFailed(owner, id, buildError))
              && error == Failure(old(rows), MarkFailed(owner, id, buildError))
    {
      if !IsUuid(id) || Key(id) !in rows || rows[Key(id)].owner != owner {
        return Some(NotFound);
      }
      rows := rows[Key(id) := rows[Key(id)].(buildState := Failed, buildError := Some(buildError))];
      return None;
    }

    method PublishProject(owner: int, id: string, commit: string, svc: Option<Commits>) returns (error: Option<Error>)
      modifies this
      ensures error == if OwnedBy(old(rows), owner, id) then None else Some(NotFound)
      ensures error.None? ==>
                && Key(id) in rows && rows[Key(id)].published && rows[Key(id)].buildState == Published
                && rows[Key(id)].buildError == None
                && rows[Key(id)].commit == Some(commit) && rows[Key(id)].serviceCommits == svc
      ensures rows == Step(old(rows), Publish(owner, id, commit, svc))
              && error == Failure(old(rows), Publish(owner, id, commit, svc))
    {
      if !IsUuid(id) || Key(id) !in rows || rows[Key(id)].owner != owner {
        return Some(NotFound);
      }
      var row := rows[Key(id)];
      row := row.(published := true, buildState := Published, buildError := None);
      row := row.(commit := Some(commit), serviceCommits := svc);
      rows := rows[Key(id) := row];
      return None;
    }

    /** A changed manifest makes the Project a draft again; a rename changes nothing else. */
    method UpdateProject(owner: int, id: string, name: string, manifest: Manifest) returns (error: Option<Error>)
      modifies this
      ensures error == if !OwnedBy(old(rows), owner, id) then Some(NotFound)
                       else if exists k :: k in old(rows) && k != Key(id) && old(rows)[k].owner == owner
                                 && old(rows)[k].name == name
                       then Some(NameTaken) else None
      ensures error.None? ==>
                && Key(id) in rows && Key(id) in old(rows)
                && rows[Key(id)].name == name && rows[Key(id)].manifest == manifest
                && rows[Key(id)].slug == old(rows)[Key(id)].slug
                && rows[Key(id)].startedAt == old(rows)[Key(id)].startedAt
                && if manifest == old(rows)[Key(id)].manifest then rows[Key(id)] == old(rows)[Key(id)].(name := name)
                   else
                     && !rows[Key(id)].published && rows[Key(id)].buildState == Idle
                     && rows[Key(id)].commit.None? && rows[Key(id)].serviceCommits.None?
                     && rows[Key(id)].buildError.None?
      ensures rows == Step(old(rows), Update(owner, id, name, manifest))
              && error == Failure(old(rows), Update(owner, id, name, manifest))
    {
      if !IsUuid(id) || Key(id) !in rows || rows[Key(id)].owner != owner {
        return Some(NotFound);
      }
      if NameUsed(rows, owner, name, Key(id)) {
        return Some(NameTaken);
      }
      var before := rows[Key(id)];
      var changed := before.manifest != manifest;
      var row := before.(name := name, manifest := manifest);
      row := row.(published := if changed then false else before.published);
      row := row.(commit := if changed then None else before.commit);
      row := row.(serviceCommits := if changed then None else before.serviceCommits);
      row := row.(buildState := if changed then Idle else before.buildState);
      row := row.(buildError := if changed then None else before.buildError);
      rows := rows[Key(id) := row];
      return None;
    }

    method SetProjectSlug(owner: int, id: string, slug: string) returns (error: Option<Error>)
      modifies this
      ensures error == if !OwnedBy(old(rows), owner, id) then Some(NotFound)
                       else if slug == "" then None
                       else if exists k :: k in old(rows) && k != Key(id) && old(rows)[k].owner == owner
                                 && old(rows)[k].slug == Some(slug)
                       then Some(SlugTaken) else None
      ensures error.None? ==>
                Key(id) in rows && rows[Key(id)].slug == if slug == "" then None else Some(slug)
      ensures rows == Step(old(rows), SetSlug(owner, id, slug)) && error == Failure(old(rows), SetSlug(owner, id, slug))
    {
      if !IsUuid(id) || Key(id) !in rows || rows[Key(id)].owner != owner {
        return Some(NotFound);
      }
      if slug != "" && SlugUsed(rows, owner, slug, Key(id)) {
        return Some(SlugTaken);
      }
      rows := rows[Key(id) := rows[Key(id)].(slug := if slug == "" then None else Some(slug))];
      return None;
    }

    /** Row by row, in any order; n is how many rows it settled. */
    method ReclaimStuckBuilds(perService: int, grace: int, now: int) returns (n: nat)
      modifies this
      ensures rows == Step(old(rows), Reclaim(perService, grace, now))
      ensures rows.Keys == old(rows).Keys && forall k :: k in rows ==>
                var row := old(rows)[k];
                rows[k] == if Stranded(row, now - ((|row.manifest.services| + 1) * perService + grace))
                           then row.(buildState := Failed, buildError := Some(
                             "the build did not finish (the server restarted or the build was interrupted)"
                               + " — please retry"))
                           else row
      ensures n == |set k | k in old(rows) && Stale(old(rows)[k], perService, grace, now)|
    {
      n := 0;
      var before := rows;
      var left := rows.Keys;
      ghost var done: set<string> := {};
      while left != {}
        invariant left <= before.Keys && rows.Keys == before.Keys
        invariant forall k :: k in before ==>
                  rows[k] == if k in left then before[k] else Reclaimed(before[k], perService, grace, now)
        invariant done == set k | k in before && k !in left && Stale(before[k], perService, grace, now)
        invariant n == |done|
        decreases left
      {
        var k :| k in left;
        if Stale(rows[k], perService, grace, now) {
          rows := rows[k := rows[k].(buildState := Failed, buildError := Some(INTERRUPTED))];
          n := n + 1;
          done := done + {k};
        }
        left := left - {k};
      }
      assert done == set k | k in before && Stale(before[k], perService, grace, now);
      forall k | k in before
        ensures var row := before[k];
                rows[k] == if Stranded(row, now - ((|row.manifest.services| + 1) * perService + grace))
                           then row.(buildState := Failed, buildError := Some(
                             "the build did not finish (the server restarted or the build was interrupted)"
                               + " — please retry"))
                           else row
      {
        ReclaimedText(before[k], perService, grace, now);
      }
      hide Stale, Reclaimed, Window;
    }
  }

  lemma ReclaimedText(row: Row, perService: int, grace: int, now: int)
    ensures Reclaimed(row, perService, grace, now)
         == if Stranded(row, now - ((|row.manifest.services| + 1) * perService + grace))
            then row.(buildState := Failed, buildError := Some(
              "the build did not finish (the server restarted or the build was interrupted)"
                + " — please retry"))
            else row
  {
    assert INTERRUPTED == "the build did not finish (the server restarted or the build was interrupted)"
                            + " — please retry";
  }


  /** What a Guest can play. */
  function Playable(rows: Rows, id: string): Option<Row>
  {
    if IsUuid(id) && Key(id) in rows && rows[Key(id)].published then Some(rows[Key(id)]) else None
  }
}
