/** What every sequence of statements keeps in the projects table, and which version a Guest
    plays at any point of it (internal/store/projects.go). */
module Published {
  import opened Text
  import opened Manifest
  import P = Projects

  // ---- The invariants the migrations and comments state ----

  ghost predicate RowOk(r: P.Row)
  {
    && (r.published <==> r.commit.Some?)
    && (r.serviceCommits.Some? ==> r.published)
    && (r.buildError.Some? <==> r.buildState == P.Failed)
    && (r.buildState == P.Building ==> r.startedAt.Some?)
    && (r.buildState == P.Published ==> r.published)
    && r.slug != Some("")
  }

  ghost predicate KeysOk(rows: P.Rows) { forall k :: k in rows ==> P.IsUuid(k) && P.Key(k) == k }

  ghost predicate RowsOk(rows: P.Rows) { forall k :: k in rows ==> RowOk(rows[k]) }

  ghost predicate Unique(rows: P.Rows)
  {
    && (forall k, l :: k in rows && l in rows && k != l && rows[k].owner == rows[l].owner ==>
        rows[k].name != rows[l].name)
    && (forall k, l :: k in rows && l in rows && k != l && rows[k].owner == rows[l].owner && rows[k].slug.Some? ==>
        rows[k].slug != rows[l].slug)
  }

  ghost predicate TableOk(rows: P.Rows) { KeysOk(rows) && RowsOk(rows) && Unique(rows) }

  lemma KeyOfKey(id: string)
    ensures P.Key(P.Key(id)) == P.Key(id)
    ensures P.IsUuid(id) <==> P.IsUuid(P.Key(id))
  {
    assert forall i :: 0 <= i < |id| ==>
      P.HexDigit(P.Key(id)[i]) == P.HexDigit(id[i]) && ((P.Key(id)[i] == '-') == (id[i] == '-'));
  }

  lemma KeysAreKept(rows: P.Rows, op: P.Op)
    requires KeysOk(rows) && P.Admissible(rows, op)
    ensures KeysOk(P.Step(rows, op))
  {
  }

  lemma RowsAreKept(rows: P.Rows, op: P.Op)
    requires RowsOk(rows)
    ensures RowsOk(P.Step(rows, op))
  {
  }

  lemma UniqueIsKept(rows: P.Rows, op: P.Op)
    requires Unique(rows) && KeysOk(rows) && P.Admissible(rows, op)
    ensures Unique(P.Step(rows, op))
  {
    if P.Failure(rows, op).None? {
      match op
      case Create(key, owner, name, m) =>
        assert "" !in rows;
        UniqueWith(rows, key, P.Step(rows, op)[key]);
      case Reclaim(_, _, _) => ReclaimKeepsUnique(rows, op);
      case Start(_, id, _) => UniqueWith(rows, P.Key(id), P.Step(rows, op)[P.Key(id)]);
      case MarkFailed(_, id, _) => UniqueWith(rows, P.Key(id), P.Step(rows, op)[P.Key(id)]);
      case Publish(_, id, _, _) => UniqueWith(rows, P.Key(id), P.Step(rows, op)[P.Key(id)]);
      case Update(_, id, _, _) => UniqueWith(rows, P.Key(id), P.Step(rows, op)[P.Key(id)]);
      case SetSlug(_, id, _) => UniqueWith(rows, P.Key(id), P.Step(rows, op)[P.Key(id)]);
    }
  }

  /** Writing one row keeps the table unique when nobody else of that Owner has its name or slug. */
  lemma UniqueWith(rows: P.Rows, k: string, r: P.Row)
    requires Unique(rows)
    requires !P.NameUsed(rows, r.owner, r.name, k)
    requires r.slug.Some? ==> !P.SlugUsed(rows, r.owner, r.slug.value, k)
    ensures Unique(rows[k := r])
  {
  }

  lemma ReclaimKeepsUnique(rows: P.Rows, op: P.Op)
    requires Unique(rows) && op.Reclaim?
    ensures Unique(P.Step(rows, op))
  {
    var after := P.Step(rows, op);
    assert forall k :: k in after ==>
      after[k].owner == rows[k].owner && after[k].name == rows[k].name && after[k].slug == rows[k].slug;
  }

  function RowsAfter(ops: seq<P.Op>): P.Rows
  {
    if ops == [] then map[] else P.Step(RowsAfter(ops[..|ops| - 1]), ops[|ops| - 1])
  }

  predicate Possible(ops: seq<P.Op>)
  {
    ops != [] ==> Possible(ops[..|ops| - 1]) && P.Admissible(RowsAfter(ops[..|ops| - 1]), ops[|ops| - 1])
  }

  /** At every point: published exactly when a commit is recorded, an error recorded exactly
      when failed, a building row stamped, names and slugs unique per Owner. */
  lemma {:induction false} TableStaysOk(ops: seq<P.Op>)
    requires Possible(ops)
    ensures TableOk(RowsAfter(ops))
  {
    if ops != [] {
      var before, op := RowsAfter(ops[..|ops| - 1]), ops[|ops| - 1];
      TableStaysOk(ops[..|ops| - 1]);
      KeysAreKept(before, op);
      RowsAreKept(before, op);
      UniqueIsKept(before, op);
    }
  }

  // ---- The played version ----

  datatype Pin = Pin(commit: string, serviceCommits: Option<P.Commits>)

  function PinOf(rows: P.Rows, id: string): Option<Pin>
  {
    match P.Playable(rows, id)
    case None => None
    case Some(row) => Some(Pin(row.commit.GetOr(""), row.serviceCommits))
  }

  /** The statement publishes that Project. */
  predicate Publishes(rows: P.Rows, op: P.Op, key: string)
  {
    op.Publish? && P.Owns(rows, op.owner, op.id) && P.Key(op.id) == key
  }

  /** The statement changes that Project's manifest. */
  predicate Redrafts(rows: P.Rows, op: P.Op, key: string)
  {
    op.Update? && P.Failure(rows, op).None? && P.Key(op.id) == key && rows[key].manifest != op.manifest
  }

  /** How one statement moves the played version: no other kind of statement does. */
  lemma PinStep(rows: P.Rows, op: P.Op, id: string)
    requires TableOk(rows) && P.Admissible(rows, op)
    ensures PinOf(P.Step(rows, op), id) ==
              if Publishes(rows, op, P.Key(id)) then Some(Pin(op.commit, op.serviceCommits))
              else if Redrafts(rows, op, P.Key(id)) then None
              else PinOf(rows, id)
  {
    KeyOfKey(id);
    if op.Publish? || op.Update? {
      KeyOfKey(op.id);
    }
  }

  /** The k-th statement published these commits, and none since published or redrafted. */
  ghost predicate PinnedAt(ops: seq<P.Op>, id: string, pin: Pin, k: int)
  {
    && 0 <= k < |ops|
    && Publishes(RowsAfter(ops[..k]), ops[k], P.Key(id)) && pin == Pin(ops[k].commit, ops[k].serviceCommits)
    && forall j :: k < j < |ops| ==> Quiet(ops, id, j)
  }

  ghost predicate Quiet(ops: seq<P.Op>, id: string, j: int)
    requires 0 <= j < |ops|
  {
    !Publishes(RowsAfter(ops[..j]), ops[j], P.Key(id)) && !Redrafts(RowsAfter(ops[..j]), ops[j], P.Key(id))
  }

  /** At any point a Guest gets exactly the commits of the latest publish since the manifest
      last changed. */
  lemma {:induction false} PlayedIsLatestPublish(ops: seq<P.Op>, id: string, pin: Pin)
    requires Possible(ops)
    ensures PinOf(RowsAfter(ops), id) == Some(pin) <==> exists k :: PinnedAt(ops, id, pin, k)
  {
    if ops != [] {
      var n := |ops| - 1;
      var init := ops[..n];
      PlayedIsLatestPublish(init, id, pin);
      TableStaysOk(init);
      PinStep(RowsAfter(init), ops[n], id);
      forall k ensures k < n && Quiet(ops, id, n) ==> (PinnedAt(ops, id, pin, k) <==> PinnedAt(init, id, pin, k))
        ensures k < n && !Quiet(ops, id, n) ==> !PinnedAt(ops, id, pin, k)
      {
        PinnedBefore(ops, id, pin, k);
      }
      if Quiet(ops, id, n) {
        if k :| PinnedAt(init, id, pin, k) { assert PinnedAt(ops, id, pin, k); }
      } else if Publishes(RowsAfter(init), ops[n], P.Key(id)) {
        assert pin == Pin(ops[n].commit, ops[n].serviceCommits) <==> PinnedAt(ops, id, pin, n);
      }
    }
  }

  lemma PinnedBefore(ops: seq<P.Op>, id: string, pin: Pin, k: int)
    requires ops != []
    ensures var n := |ops| - 1;
            && (k < n && Quiet(ops, id, n) ==> (PinnedAt(ops, id, pin, k) <==> PinnedAt(ops[..n], id, pin, k)))
            && (k < n && !Quiet(ops, id, n) ==> !PinnedAt(ops, id, pin, k))
  {
    hide P.Step, Publishes, Redrafts, RowsAfter;
    var n := |ops| - 1;
    var init := ops[..n];
    forall j | 0 <= j < n ensures Quiet(init, id, j) <==> Quiet(ops, id, j) {
      assert init[..j] == ops[..j] && init[j] == ops[j];
    }
    if 0 <= k < n {
      assert init[..k] == ops[..k] && init[k] == ops[k];
    }
  }

  // ---- Owners ----

  /** Another Owner's Project answers as a missing one does, and is left alone. */
  lemma OthersSeeNothing(rows: P.Rows, op: P.Op, key: string, owner: int)
    requires key in rows && rows[key].owner != owner
    requires match op
             case Start(o, id, _) => o == owner && P.Key(id) == key
             case MarkFailed(o, id, _) => o == owner && P.Key(id) == key
             case Publish(o, id, _, _) => o == owner && P.Key(id) == key
             case Update(o, id, _, _) => o == owner && P.Key(id) == key
             case SetSlug(o, id, _) => o == owner && P.Key(id) == key
             case _ => false
    ensures P.Failure(rows, op) == Some(P.NotFound) && P.Step(rows, op) == rows
    ensures P.Failure(rows - {key}, op) == Some(P.NotFound) && P.Step(rows - {key}, op) == rows - {key}
  {
  }

  /** A statement about one Project leaves every other row as it was. */
  lemma OtherRowsUntouched(rows: P.Rows, op: P.Op, key: string)
    requires key in rows && P.Admissible(rows, op)
    requires match op
             case Create(_, _, _, _) => true
             case Start(_, id, _) => P.Key(id) != key
             case MarkFailed(_, id, _) => P.Key(id) != key
             case Publish(_, id, _, _) => P.Key(id) != key
             case Update(_, id, _, _) => P.Key(id) != key
             case Reclaim(_, _, _) => rows[key].buildState != P.Building
             case SetSlug(_, id, _) => P.Key(id) != key
    ensures key in P.Step(rows, op) && P.Step(rows, op)[key] == rows[key]
  {
  }

  /** A Project, once there, stays, and stays its Owner's, whatever statements follow. */
  lemma {:induction false} OwnersAreForever(ops: seq<P.Op>, n: nat, key: string)
    requires Possible(ops) && n <= |ops| && key in RowsAfter(ops[..n])
    ensures key in RowsAfter(ops) && RowsAfter(ops)[key].owner == RowsAfter(ops[..n])[key].owner
  {
    if n == |ops| {
      assert ops[..n] == ops;
    } else {
      var init := ops[..|ops| - 1];
      assert init[..n] == ops[..n];
      OwnersAreForever(init, n, key);
    }
  }
}
