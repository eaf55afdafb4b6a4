/** The schema migrator (internal/store/migrate.go): what any sequence of runs, each failing
    anywhere, leaves in the database. */
module Migrate {
  import opened Text
  import opened NetAddr

  datatype Migration = Migration(version: int, name: string, sql: string, checksum: string)

  // ---- Loading the embedded files ----

  datatype File = File(name: string, isDir: bool, body: string)

  /** "0001_owners.sql" is (1, "owners"). */
  function ParseMigrationName(filename: string): Option<(int, string)>
  {
    var base := if HasSuffix(filename, ".sql") then filename[..|filename| - 4] else filename;
    var at := IndexOf(base, '_');
    if at <= 0 || at + 1 == |base| then None
    else
      match Atoi(base[..at])
      case None => None
      case Some(version) => Some((version, base[at + 1..]))
  }

  /** A numbered file name is read back, leading zeros or not. */
  lemma NumberedNameIsRead(zeros: string, version: nat, name: string)
    requires version < 0x8000_0000_0000_0000 && name != "" && forall i :: 0 <= i < |zeros| ==> zeros[i] == '0'
    ensures ParseMigrationName(zeros + Decimal(version) + "_" + name + ".sql") == Some((version, name))
  {
    var digits := zeros + Decimal(version);
    var base := digits + "_" + name;
    assert HasSuffix(base + ".sql", ".sql") && (base + ".sql")[..|base|] == base;
    assert forall i :: 0 <= i < |digits| ==> base[i] == digits[i] && IsDigit(base[i]);
    assert base[|digits|] == '_' && base[..|digits|] == digits && base[|digits| + 1..] == name;
    PaddedIsRead(zeros, version);
    assert IndexOf(base, '_') == |digits|;
    hide IndexOf, Atoi, Decimal;
  }

  lemma PaddedIsRead(zeros: string, n: nat)
    requires n < 0x8000_0000_0000_0000 && forall i :: 0 <= i < |zeros| ==> zeros[i] == '0'
    ensures Atoi(zeros + Decimal(n)) == Some(n)
  {
    DecimalValue(n);
    ZerosAddNothing(zeros, Decimal(n));
    var s := zeros + Decimal(n);
    assert IsDigit(s[0]) by { assert zeros == "" ==> s == Decimal(n); }
  }

  lemma {:induction false} ZerosAddNothing(zeros: string, digits: string)
    requires AllDigits(digits) && forall i :: 0 <= i < |zeros| ==> zeros[i] == '0'
    ensures AllDigits(zeros + digits) && DigitsValue(zeros + digits) == DigitsValue(digits)
    decreases |digits|, |zeros|
  {
    var s := zeros + digits;
    if digits == "" {
      if zeros != "" {
        ZerosAddNothing(zeros[..|zeros| - 1], "");
        assert s[..|s| - 1] == zeros[..|zeros| - 1] + "";
      } else {
        assert s == "";
      }
    } else {
      ZerosAddNothing(zeros, digits[..|digits| - 1]);
      assert s[..|s| - 1] == zeros + digits[..|digits| - 1] && s[|s| - 1] == digits[|digits| - 1];
    }
  }

  /** And nothing else is: a name that is read is a number, a '_' and a name that is not empty. */
  lemma OnlyNumberedNamesAreRead(filename: string, version: int, name: string)
    ensures ParseMigrationName(filename) == Some((version, name)) ==>
              exists number :: number != "" && '_' !in number && name != "" && Atoi(number) == Some(version)
                && (filename == number + "_" + name || filename == number + "_" + name + ".sql")
  {
    if ParseMigrationName(filename) == Some((version, name)) {
      var base := if HasSuffix(filename, ".sql") then filename[..|filename| - 4] else filename;
      var at := IndexOf(base, '_');
      var number := base[..at];
      hide Atoi, IndexOf;
      assert base == number + "_" + name;
      assert base == filename || filename == base + ".sql";
      assert number != "" && '_' !in number && Atoi(number) == Some(version);
    }
  }

  predicate IsMigration(f: File) { !f.isDir && HasSuffix(f.name, ".sql") }

  /** What one file contributes. */
  function PickedOf(f: File, hash: string -> string): seq<Migration>
  {
    if !IsMigration(f) then []
    else
      match ParseMigrationName(f.name)
      case None => []
      case Some(parsed) => [Migration(parsed.0, parsed.1, f.body, hash(f.body))]
  }

  /** The migrations the files name, in the files' order, as far as their names parse. */
  function Picked(files: seq<File>, hash: string -> string): seq<Migration>
  {
    if files == [] then [] else Picked(files[..|files| - 1], hash) + PickedOf(files[|files| - 1], hash)
  }

  predicate AllParse(files: seq<File>)
  {
    forall i :: 0 <= i < |files| && IsMigration(files[i]) ==> ParseMigrationName(files[i].name).Some?
  }

  predicate DistinctVersions(migs: seq<Migration>)
  {
    forall i, j :: 0 <= i < j < |migs| ==> migs[i].version != migs[j].version
  }

  function VersionsOf(migs: seq<Migration>): set<int>
  {
    set i | 0 <= i < |migs| :: migs[i].version
  }

  predicate Increasing(migs: seq<Migration>)
  {
    forall i, j :: 0 <= i < j < |migs| ==> migs[i].version < migs[j].version
  }

  function Insert(m: Migration, migs: seq<Migration>): seq<Migration>
  {
    if migs == [] || m.version < migs[0].version then [m] + migs else [migs[0]] + Insert(m, migs[1..])
  }

  /** sort.Slice by version. */
  function Sorted(migs: seq<Migration>): seq<Migration>
  {
    if migs == [] then [] else Insert(migs[|migs| - 1], Sorted(migs[..|migs| - 1]))
  }

  lemma {:induction false} InsertKeeps(m: Migration, migs: seq<Migration>)
    requires Increasing(migs) && forall x :: x in migs ==> x.version != m.version
    ensures Increasing(Insert(m, migs)) && forall x :: x in Insert(m, migs) <==> x == m || x in migs
  {
    if migs != [] {
      Parted(migs);
      if m.version < migs[0].version {
        Prepended(m, migs);
      } else {
        InsertKeeps(m, migs[1..]);
        Prepended(migs[0], Insert(m, migs[1..]));
      }
    }
  }

  lemma Parted(migs: seq<Migration>)
    requires Increasing(migs) && migs != []
    ensures Increasing(migs[1..]) && forall x :: x in migs[1..] ==> x in migs && x.version > migs[0].version
    ensures forall x :: x in migs <==> x == migs[0] || x in migs[1..]
  {
    assert migs == [migs[0]] + migs[1..];
    forall x | x in migs[1..] ensures x.version > migs[0].version {
      var i :| 0 <= i < |migs[1..]| && migs[1..][i] == x;
      assert migs[i + 1] == x;
    }
  }

  lemma Prepended(m: Migration, migs: seq<Migration>)
    requires Increasing(migs) && forall x :: x in migs ==> m.version < x.version
    ensures Increasing([m] + migs) && forall x :: x in [m] + migs <==> x == m || x in migs
  {
  }

  lemma {:induction false} SortedKeeps(migs: seq<Migration>)
    requires DistinctVersions(migs)
    ensures Increasing(Sorted(migs)) && forall x :: x in Sorted(migs) <==> x in migs
  {
    if migs != [] {
      var init, last := migs[..|migs| - 1], migs[|migs| - 1];
      SortedKeeps(init);
      assert migs == init + [last];
      forall x | x in init ensures x.version != last.version {}
      InsertKeeps(last, Sorted(init));
    }
  }

  /** Every .sql file, in version order, once: a name that does not parse, or two files of one
      version, refuse the whole set. */
  method LoadMigrations(files: seq<File>, hash: string -> string) returns (r: Option<seq<Migration>>)
    ensures r.Some? <==> AllParse(files) && DistinctVersions(Picked(files, hash))
    ensures r.Some? ==> Loads(files, hash, r.value)
  {
    var migs: seq<Migration> := [];
    var seen: set<int> := {};
    for i := 0 to |files|
      invariant AllParse(files[..i]) && migs == Picked(files[..i], hash) && DistinctVersions(migs)
      invariant seen == VersionsOf(migs)
    {
      hide ParseMigrationName, Picked;
      PickedNext(files, i, hash);
      if files[i].isDir || !HasSuffix(files[i].name, ".sql") {
        continue;
      }
      var parsed := ParseMigrationName(files[i].name);
      if parsed.None? {
        return None;
      }
      if parsed.value.0 in seen {
        DistinctNext(migs, Migration(parsed.value.0, parsed.value.1, files[i].body, hash(files[i].body)));
        PickedTwice(files, i, hash);
        return None;
      }
      seen := seen + {parsed.value.0};
      DistinctNext(migs, Migration(parsed.value.0, parsed.value.1, files[i].body, hash(files[i].body)));
      migs := migs + [Migration(parsed.value.0, parsed.value.1, files[i].body, hash(files[i].body))];
    }
    assert files[..|files|] == files;
    SortedKeeps(migs);
    PickedIsHeld(files, hash);
    hide Picked, Holding;
    return Some(Sorted(migs));
  }

  /** The migration is the file's: its number and name, its body, and the body's checksum. */
  ghost predicate Holding(f: File, m: Migration, hash: string -> string)
  {
    && !f.isDir && HasSuffix(f.name, ".sql") && ParseMigrationName(f.name) == Some((m.version, m.name))
    && m.sql == f.body && m.checksum == hash(f.body)
  }

  /** In version order, each migration some file's, and each .sql file's there. */
  ghost predicate Loads(files: seq<File>, hash: string -> string, migs: seq<Migration>)
  {
    && Increasing(migs)
    && (forall m :: m in migs ==> exists i :: 0 <= i < |files| && Holding(files[i], m, hash))
    && (forall i :: 0 <= i < |files| && !files[i].isDir && HasSuffix(files[i].name, ".sql") ==>
          exists m :: m in migs && Holding(files[i], m, hash))
  }

  lemma PickedIsHeld(files: seq<File>, hash: string -> string)
    ensures forall m :: m in Picked(files, hash) <==> exists i :: 0 <= i < |files| && Holding(files[i], m, hash)
    ensures AllParse(files) ==>
              forall i :: 0 <= i < |files| && !files[i].isDir && HasSuffix(files[i].name, ".sql") ==>
                exists m :: m in Picked(files, hash) && Holding(files[i], m, hash)
  {
    forall m ensures m in Picked(files, hash) <==> exists i :: 0 <= i < |files| && Holding(files[i], m, hash) {
      PickedIff(files, hash, m);
    }
    hide Holding, Picked, ParseMigrationName;
    forall i | AllParse(files) && 0 <= i < |files| && !files[i].isDir && HasSuffix(files[i].name, ".sql")
      ensures exists m :: m in Picked(files, hash) && Holding(files[i], m, hash)
    {
      var m := FileHolds(files[i], hash);
      assert Holding(files[i], m, hash);
    }
  }

  lemma {:induction false} PickedIff(files: seq<File>, hash: string -> string, m: Migration)
    ensures m in Picked(files, hash) <==> exists i :: 0 <= i < |files| && Holding(files[i], m, hash)
  {
    hide Holding, PickedOf, ParseMigrationName, IsMigration;
    if files != [] {
      var n := |files| - 1;
      PickedIff(files[..n], hash, m);
      OneFile(files[n], hash);
      assert forall i :: 0 <= i < n ==> files[..n][i] == files[i];
    }
  }

  lemma OneFile(f: File, hash: string -> string)
    ensures forall m :: m in PickedOf(f, hash) <==> Holding(f, m, hash)
  {
    hide ParseMigrationName;
  }

  lemma FileHolds(f: File, hash: string -> string) returns (m: Migration)
    requires IsMigration(f) && ParseMigrationName(f.name).Some?
    ensures Holding(f, m, hash)
  {
    var parsed := ParseMigrationName(f.name).value;
    m := Migration(parsed.0, parsed.1, f.body, hash(f.body));
  }

  lemma DistinctNext(migs: seq<Migration>, m: Migration)
    ensures VersionsOf(migs + [m]) == VersionsOf(migs) + {m.version}
    ensures DistinctVersions(migs) ==> (DistinctVersions(migs + [m]) <==> m.version !in VersionsOf(migs))
  {
    var next := migs + [m];
    assert next[|migs|] == m && forall k :: 0 <= k < |migs| ==> next[k] == migs[k];
    forall v | v in VersionsOf(migs) ensures v in VersionsOf(next) {
      var k :| 0 <= k < |migs| && migs[k].version == v;
      assert next[k].version == v;
    }
    if m.version in VersionsOf(migs) {
      var k :| 0 <= k < |migs| && migs[k].version == m.version;
      assert next[k].version == next[|migs|].version;
    }
  }

  lemma PickedNext(files: seq<File>, i: nat, hash: string -> string)
    requires i < |files|
    ensures Picked(files[..i + 1], hash) == Picked(files[..i], hash) + PickedOf(files[i], hash)
    ensures AllParse(files[..i + 1]) <==>
              AllParse(files[..i]) && (IsMigration(files[i]) ==> ParseMigrationName(files[i].name).Some?)
    ensures AllParse(files) ==> AllParse(files[..i + 1])
  {
    hide ParseMigrationName, IsMigration, PickedOf;
    var next := files[..i + 1];
    assert next[..i] == files[..i] && next[i] == files[i];
    assert forall k :: 0 <= k < i ==> next[k] == files[..i][k] == files[k];
    assert AllParse(files[..i]) <==>
      forall k :: 0 <= k < i && IsMigration(files[k]) ==> ParseMigrationName(files[k].name).Some?;
  }

  /** A version picked twice by the first files stays picked twice. */
  lemma PickedTwice(files: seq<File>, i: nat, hash: string -> string)
    requires i < |files| && !DistinctVersions(Picked(files[..i + 1], hash))
    ensures !DistinctVersions(Picked(files, hash))
    decreases |files| - i
  {
    hide ParseMigrationName, IsMigration, PickedOf, Picked, AllParse;
    if i + 1 < |files| {
      PickedNext(files, i + 1, hash);
      StillTwice(Picked(files[..i + 1], hash), PickedOf(files[i + 1], hash));
      PickedTwice(files, i + 1, hash);
    } else {
      assert files[..i + 1] == files;
    }
  }

  lemma StillTwice(migs: seq<Migration>, more: seq<Migration>)
    requires !DistinctVersions(migs)
    ensures !DistinctVersions(migs + more)
  {
    assert forall k :: 0 <= k < |migs| ==> (migs + more)[k] == migs[k];
  }

  // ---- Running ----

  /** The recorded checksums by version, and the migrations that made up the schema, in order. */
  datatype Db = Db(recorded: map<int, string>, schema: seq<Migration>)

  const EMPTY := Db(map[], [])

  /** How applying one migration goes: its transaction fails before the commit, the commit
      fails, the commit succeeds but its answer is lost, or all is well. */
  datatype Fate = FailsBefore | CommitFails | AnswerLost | Commits

  /** One run of the migrator: acquiring, locking, creating the bookkeeping table and reading
      it may fail; fates is per migration. */
  datatype Attempt = Attempt(ready: bool, fates: nat -> Fate)

  datatype Outcome = Done | Refused | Failed

  function Applied(db: Db, m: Migration): Db
  {
    Db(db.recorded[m.version := m.checksum], db.schema + [m])
  }

  class Database {
    var recorded: map<int, string>
    var schema: seq<Migration>

    constructor ()
      ensures View() == EMPTY
    {
      recorded, schema := map[], [];
    }

    function View(): Db
      reads this
    {
      Db(recorded, schema)
    }

    /** The body and its record go in together or not at all, also when the answer is lost. */
    method ApplyOne(m: Migration, fate: Fate) returns (ok: bool)
      modifies this
      ensures ok == fate.Commits?
      ensures View() == if fate.Commits? || fate.AnswerLost? then Applied(old(View()), m) else old(View())
    {
      if fate.FailsBefore? {
        return false;
      }
      var txSchema := schema + [m];
      var txRecorded := recorded[m.version := m.checksum];
      if fate.CommitFails? {
        return false;
      }
      recorded, schema := txRecorded, txSchema;
      return fate.Commits?;
    }

    /** One start of the control plane. */
    method Migrate(migs: seq<Migration>, a: Attempt) returns (r: Outcome)
      requires Increasing(migs)
      modifies this
      ensures (r, View()) == Run(old(View()), migs, a)
    {
      if !a.ready {
        return Failed;
      }
      var applied := recorded;
      var maxKnown := 0;
      if |migs| > 0 {
        maxKnown := migs[|migs| - 1].version;
      }
      var left := applied.Items;
      while left != {}
        invariant left <= applied.Items
        invariant forall p :: p in applied.Items - left ==> p.0 <= maxKnown
        decreases left
      {
        var p :| p in left;
        if p.0 > maxKnown {
          return Refused;
        }
        left := left - {p};
      }
      assert forall v :: v in applied ==> (v, applied[v]) in applied.Items;
      for i := 0 to |migs|
        invariant RunFrom(applied, View(), migs, i, a) == RunFrom(applied, old(View()), migs, 0, a)
      {
        var m := migs[i];
        if m.version in applied {
          if applied[m.version] != m.checksum {
            return Refused;
          }
          continue;
        }
        var ok := ApplyOne(m, a.fates(i));
        if !ok {
          return Failed;
        }
      }
      r := Done;
    }
  }

  predicate Newer(db: Db, migs: seq<Migration>)
  {
    exists v :: v in db.recorded && v > if migs == [] then 0 else migs[|migs| - 1].version
  }

  /** A run from migration i on, where applied is what was recorded when it began. */
  function RunFrom(applied: map<int, string>, db: Db, migs: seq<Migration>, i: nat, a: Attempt): (Outcome, Db)
    requires i <= |migs|
    decreases |migs| - i
  {
    if i == |migs| then (Done, db)
    else
      var m := migs[i];
      if m.version in applied then
        if applied[m.version] != m.checksum then (Refused, db) else RunFrom(applied, db, migs, i + 1, a)
      else
        match a.fates(i)
        case Commits => RunFrom(applied, Applied(db, m), migs, i + 1, a)
        case AnswerLost => (Failed, Applied(db, m))
        case _ => (Failed, db)
  }

  function Run(db: Db, migs: seq<Migration>, a: Attempt): (Outcome, Db)
  {
    if !a.ready then (Failed, db)
    else if Newer(db, migs) then (Refused, db)
    else RunFrom(db.recorded, db, migs, 0, a)
  }

  // ---- What every sequence of runs keeps ----

  /** The database holds exactly the first n migrations, each applied once, in order. */
  ghost predicate Holds(db: Db, migs: seq<Migration>, n: nat)
  {
    && n <= |migs|
    && db.schema == migs[..n]
    && db.recorded.Keys == VersionsOf(migs[..n])
    && forall i :: 0 <= i < n ==> migs[i].version in db.recorded && db.recorded[migs[i].version] == migs[i].checksum
  }

  lemma HoldsOneMore(db: Db, migs: seq<Migration>, n: nat)
    requires Increasing(migs) && Holds(db, migs, n) && n < |migs|
    ensures Holds(Applied(db, migs[n]), migs, n + 1)
  {
    assert migs[..n + 1] == migs[..n] + [migs[n]];
    DistinctNext(migs[..n], migs[n]);
  }

  /** A run past what was recorded when it began. */
  lemma {:induction false} RunNew(applied: map<int, string>, db: Db, migs: seq<Migration>, n: nat, k: nat, a: Attempt)
    returns (end: nat)
    requires Increasing(migs) && n <= k <= |migs| && applied.Keys == VersionsOf(migs[..n])
    requires Holds(db, migs, k)
    ensures k <= end && Holds(RunFrom(applied, db, migs, k, a).1, migs, end)
    ensures !RunFrom(applied, db, migs, k, a).0.Refused?
    ensures RunFrom(applied, db, migs, k, a).0.Done? ==> end == |migs|
    decreases |migs| - k
  {
    hide Holds;
    end := k;
    if k < |migs| {
      assert migs[k].version !in applied by { NotYet(migs, n, k); }
      HoldsOneMore(db, migs, k);
      if a.fates(k).Commits? {
        end := RunNew(applied, Applied(db, migs[k]), migs, n, k + 1, a);
      } else if a.fates(k).AnswerLost? {
        end := k + 1;
      }
    }
  }

  lemma NotYet(migs: seq<Migration>, n: nat, k: nat)
    requires Increasing(migs) && n <= k < |migs|
    ensures migs[k].version !in VersionsOf(migs[..n])
  {
  }

  /** A run passes over what was recorded as it is. */
  lemma {:induction false} RunOld(db: Db, migs: seq<Migration>, n: nat, k: nat, a: Attempt)
    requires Holds(db, migs, n) && k <= n
    ensures RunFrom(db.recorded, db, migs, k, a) == RunFrom(db.recorded, db, migs, n, a)
    decreases n - k
  {
    if k < n {
      RunOld(db, migs, n, k + 1, a);
    }
  }

  /** One run from a prefix ends in a longer one or the same; it never refuses; success means
      the whole list; and on the whole list it does nothing. */
  lemma RunExtendsPrefix(db: Db, migs: seq<Migration>, n: nat, a: Attempt) returns (end: nat)
    requires Increasing(migs) && Holds(db, migs, n)
    ensures n <= end && Holds(Run(db, migs, a).1, migs, end)
    ensures !Run(db, migs, a).0.Refused?
    ensures Run(db, migs, a).0.Done? ==> end == |migs|
    ensures n == |migs| && a.ready ==> Run(db, migs, a) == (Done, db)
  {
    if a.ready {
      NotNewer(db, migs, n);
      RunOld(db, migs, n, 0, a);
      end := RunNew(db.recorded, db, migs, n, n, a);
    } else {
      end := n;
    }
  }

  lemma NotNewer(db: Db, migs: seq<Migration>, n: nat)
    requires Increasing(migs) && n <= |migs| && db.recorded.Keys == VersionsOf(migs[..n])
    ensures !Newer(db, migs)
  {
    forall v | v in db.recorded ensures migs != [] && v <= migs[|migs| - 1].version {
      var i :| 0 <= i < n && migs[..n][i].version == v;
    }
  }

  // ---- Another binary's database ----

  /** The recorded versions are the first n of the list, whatever their checksums. */
  ghost predicate SameVersions(db: Db, migs: seq<Migration>, n: nat)
  {
    n <= |migs| && db.recorded.Keys == VersionsOf(migs[..n])
  }

  /** A binary run against a database whose versions are its own first n refuses exactly when
      a recorded file was edited, and then applies nothing. */
  lemma EditedIsRefused(db: Db, migs: seq<Migration>, n: nat, a: Attempt)
    requires Increasing(migs) && SameVersions(db, migs, n) && a.ready
    ensures Run(db, migs, a).0.Refused? <==>
              exists i :: 0 <= i < n && migs[i].version in db.recorded
                && db.recorded[migs[i].version] != migs[i].checksum
    ensures Run(db, migs, a).0.Refused? ==> Run(db, migs, a).1 == db
  {
    forall i | 0 <= i < n ensures migs[i].version in db.recorded {
      assert migs[..n][i] == migs[i];
    }
    NotNewer(db, migs, n);
    EditedFrom(db, migs, n, 0, a);
  }

  lemma {:induction false} EditedFrom(db: Db, migs: seq<Migration>, n: nat, k: nat, a: Attempt)
    requires Increasing(migs) && SameVersions(db, migs, n) && k <= n
    requires forall i :: 0 <= i < n ==> migs[i].version in db.recorded
    ensures var r := RunFrom(db.recorded, db, migs, k, a);
            && (r.0.Refused? <==> exists i :: k <= i < n && db.recorded[migs[i].version] != migs[i].checksum)
            && (r.0.Refused? ==> r.1 == db)
    decreases n - k
  {
    if k < n {
      EditedFrom(db, migs, n, k + 1, a);
    } else {
      NewNeverRefused(db.recorded, db, migs, n, k, a);
    }
  }

  lemma {:induction false} NewNeverRefused(applied: map<int, string>, db: Db, migs: seq<Migration>, n: nat, k: nat,
                                           a: Attempt)
    requires Increasing(migs) && n <= k <= |migs| && applied.Keys == VersionsOf(migs[..n])
    ensures !RunFrom(applied, db, migs, k, a).0.Refused?
    decreases |migs| - k
  {
    if k < |migs| {
      NotYet(migs, n, k);
      NewNeverRefused(applied, Applied(db, migs[k]), migs, n, k + 1, a);
    }
  }

  // ---- From the files ----

  /** Edited or not, the same files. */
  ghost predicate SameNames(before: seq<File>, after: seq<File>)
  {
    && |before| == |after|
    && forall i :: 0 <= i < |before| ==> after[i].name == before[i].name && after[i].isDir == before[i].isDir
  }

  /** The file's migration is on record. */
  ghost predicate OnRecord(db: Db, f: File)
  {
    && !f.isDir && HasSuffix(f.name, ".sql") && ParseMigrationName(f.name).Some?
    && ParseMigrationName(f.name).value.0 in db.recorded
  }

  /** From files to verdict: a binary whose files have the names of those that the database was
      migrated with is refused exactly when some recorded file's body was edited, and then
      applies nothing, as long as no two bodies share a checksum. */
  lemma EditedFileIsRefused(before: seq<File>, after: seq<File>, hash: string -> string, old_: seq<Migration>,
                            new_: seq<Migration>, db: Db, n: nat, a: Attempt)
    requires Loads(before, hash, old_) && Loads(after, hash, new_) && SameNames(before, after)
    requires Holds(db, old_, n) && a.ready && forall x, y :: hash(x) == hash(y) ==> x == y
    ensures Run(db, new_, a).0.Refused? <==>
              exists i :: 0 <= i < |before| && OnRecord(db, before[i]) && before[i].body != after[i].body
    ensures Run(db, new_, a).0.Refused? ==> Run(db, new_, a).1 == db
  {
    FirstsAreSame(before, after, hash, old_, new_, db, n);
    EditedIsRefused(db, new_, n, a);
    hide Run, Loads, Holds, SameVersions, OnRecord, BodyEdited;
    forall k | 0 <= k < n
      ensures new_[k].version in db.recorded
      ensures db.recorded[new_[k].version] != new_[k].checksum <==> BodyEdited(before, after, new_[k].version)
    {
      ChecksumSaysEdited(before, after, hash, old_, new_, k);
    }
    SomeBodyEditedIff(before, after, db, new_, n);
  }

  /** The database holds the first n of the edited list, but for checksums. */
  lemma FirstsAreSame(before: seq<File>, after: seq<File>, hash: string -> string, old_: seq<Migration>,
                      new_: seq<Migration>, db: Db, n: nat)
    requires Loads(before, hash, old_) && Loads(after, hash, new_) && SameNames(before, after) && Holds(db, old_, n)
    ensures |old_| == |new_| && SameVersions(db, new_, n) && Increasing(new_)
    ensures forall k :: 0 <= k < n ==>
              && new_[k].version == old_[k].version && old_[k].version in db.recorded
              && db.recorded[old_[k].version] == old_[k].checksum
  {
    SameFilesSameVersions(before, after, hash, old_, new_);
    SameVersionsSameOrder(old_, new_);
    hide Loads;
    assert forall i :: 0 <= i < n ==> old_[..n][i].version == new_[..n][i].version;
    SameVersionsOf(old_[..n], new_[..n]);
  }

  lemma SomeBodyEditedIff(before: seq<File>, after: seq<File>, db: Db, migs: seq<Migration>, n: nat)
    requires |before| == |after| && SameVersions(db, migs, n)
    ensures (exists k :: 0 <= k < n && BodyEdited(before, after, migs[k].version)) <==>
              exists i :: 0 <= i < |before| && OnRecord(db, before[i]) && before[i].body != after[i].body
  {
    forall i | 0 <= i < |before| && OnRecord(db, before[i]) && before[i].body != after[i].body
      ensures exists k :: 0 <= k < n && BodyEdited(before, after, migs[k].version)
    {
      var v := ParseMigrationName(before[i].name).value.0;
      var k :| 0 <= k < n && migs[..n][k].version == v;
      assert IsFileOf(before[i], v) && BodyEdited(before, after, migs[k].version);
    }
    forall k | 0 <= k < n && BodyEdited(before, after, migs[k].version)
      ensures exists i :: 0 <= i < |before| && OnRecord(db, before[i]) && before[i].body != after[i].body
    {
      var i := EditedPlace(before, after, migs[k].version);
      assert migs[..n][k].version in VersionsOf(migs[..n]);
      assert OnRecord(db, before[i]);
    }
  }

  /** Some file of that version has another body now. */
  ghost predicate BodyEdited(before: seq<File>, after: seq<File>, version: int)
    requires |before| == |after|
  {
    exists i :: 0 <= i < |before| && IsFileOf(before[i], version) && before[i].body != after[i].body
  }

  ghost predicate IsFileOf(f: File, version: int)
  {
    && !f.isDir && HasSuffix(f.name, ".sql") && ParseMigrationName(f.name).Some?
    && ParseMigrationName(f.name).value.0 == version
  }

  lemma EditedPlace(before: seq<File>, after: seq<File>, version: int) returns (i: nat)
    requires |before| == |after| && BodyEdited(before, after, version)
    ensures i < |before| && IsFileOf(before[i], version) && before[i].body != after[i].body
  {
    i :| 0 <= i < |before| && IsFileOf(before[i], version) && before[i].body != after[i].body;
  }

  lemma ChecksumSaysEdited(before: seq<File>, after: seq<File>, hash: string -> string, old_: seq<Migration>,
                           new_: seq<Migration>, k: nat)
    requires Loads(before, hash, old_) && Loads(after, hash, new_) && SameNames(before, after)
    requires k < |old_| == |new_| && old_[k].version == new_[k].version && forall x, y :: hash(x) == hash(y) ==> x == y
    ensures old_[k].checksum != new_[k].checksum <==> BodyEdited(before, after, new_[k].version)
  {
    var v := new_[k].version;
    forall i | 0 <= i < |before| && IsFileOf(before[i], v)
      ensures old_[k].checksum == hash(before[i].body) && new_[k].checksum == hash(after[i].body)
    {
      FileOfVersion(before, hash, old_, k, i);
      FileOfVersion(after, hash, new_, k, i);
    }
    hide Loads, IsFileOf;
    var i := SomeFile(before, hash, old_, k);
  }

  lemma SomeFile(files: seq<File>, hash: string -> string, migs: seq<Migration>, k: nat) returns (i: nat)
    requires Loads(files, hash, migs) && k < |migs|
    ensures i < |files| && IsFileOf(files[i], migs[k].version)
  {
    assert migs[k] in migs;
    i :| 0 <= i < |files| && Holding(files[i], migs[k], hash);
  }

  /** A file of that version is the one whose migration this is. */
  lemma FileOfVersion(files: seq<File>, hash: string -> string, migs: seq<Migration>, k: nat, i: nat)
    requires Loads(files, hash, migs) && k < |migs| && i < |files| && IsFileOf(files[i], migs[k].version)
    ensures migs[k].checksum == hash(files[i].body)
  {
    hide ParseMigrationName, HasSuffix;
    var m :| m in migs && Holding(files[i], m, hash);
    var l :| 0 <= l < |migs| && migs[l] == m;
    assert l == k;
  }

  lemma SameFilesSameVersions(before: seq<File>, after: seq<File>, hash: string -> string, old_: seq<Migration>,
                              new_: seq<Migration>)
    requires Loads(before, hash, old_) && Loads(after, hash, new_) && SameNames(before, after)
    ensures VersionsOf(old_) == VersionsOf(new_)
  {
    VersionsCarryOver(before, after, hash, old_, new_);
    VersionsCarryOver(after, before, hash, new_, old_);
  }

  lemma VersionsCarryOver(before: seq<File>, after: seq<File>, hash: string -> string, old_: seq<Migration>,
                          new_: seq<Migration>)
    requires Loads(before, hash, old_) && Loads(after, hash, new_) && SameNames(before, after)
    ensures VersionsOf(old_) <= VersionsOf(new_)
  {
    hide ParseMigrationName, HasSuffix;
    forall v | v in VersionsOf(old_) ensures v in VersionsOf(new_) {
      var k :| 0 <= k < |old_| && old_[k].version == v;
      var i := SomeFile(before, hash, old_, k);
      var m :| m in new_ && Holding(after[i], m, hash);
      var l :| 0 <= l < |new_| && new_[l] == m;
      assert new_[l].version == v;
    }
  }

  lemma SameVersionsOf(a: seq<Migration>, b: seq<Migration>)
    requires |a| == |b| && forall i :: 0 <= i < |a| ==> a[i].version == b[i].version
    ensures VersionsOf(a) == VersionsOf(b)
  {
    forall v ensures v in VersionsOf(a) <==> v in VersionsOf(b) {
      if v in VersionsOf(a) {
        var i :| 0 <= i < |a| && a[i].version == v;
        assert b[i].version == v;
      }
      if v in VersionsOf(b) {
        var i :| 0 <= i < |b| && b[i].version == v;
        assert a[i].version == v;
      }
    }
  }

  lemma {:induction false} SameVersionsSameOrder(a: seq<Migration>, b: seq<Migration>)
    requires Increasing(a) && Increasing(b) && VersionsOf(a) == VersionsOf(b)
    ensures |a| == |b| && forall i :: 0 <= i < |a| ==> a[i].version == b[i].version
  {
    if a == [] || b == [] {
      EmptyIff(a);
      EmptyIff(b);
    } else {
      LastIsGreatest(a);
      LastIsGreatest(b);
      hide Increasing, VersionsOf;
      SameVersionsSameOrder(a[..|a| - 1], b[..|b| - 1]);
      assert forall i :: 0 <= i < |a| - 1 ==> a[..|a| - 1][i] == a[i];
      assert forall i :: 0 <= i < |b| - 1 ==> b[..|b| - 1][i] == b[i];
    }
  }

  lemma EmptyIff(migs: seq<Migration>)
    ensures VersionsOf(migs) == {} <==> migs == []
  {
    if migs != [] {
      assert migs[0].version in VersionsOf(migs);
    }
  }

  lemma LastIsGreatest(migs: seq<Migration>)
    requires Increasing(migs) && migs != []
    ensures var init, last := migs[..|migs| - 1], migs[|migs| - 1].version;
            && Increasing(init) && VersionsOf(init) == VersionsOf(migs) - {last}
            && last in VersionsOf(migs) && forall v :: v in VersionsOf(migs) ==> v <= last
  {
    var init, last := migs[..|migs| - 1], migs[|migs| - 1];
    assert migs == init + [last];
    DistinctNext(init, last);
  }

  /** Rolling back: an older binary, whose list is a proper prefix, leaves what a newer one
      applied alone, and refuses it, unless it has no migrations at all and none of the newer
      one's versions is positive. Rolling forward: the newer binary takes up what the older
      one left, and a run of it that succeeds completes it. */
  lemma OlderRefusesNewerResumes(db: Db, older: seq<Migration>, newer: seq<Migration>, n: nat, a: Attempt)
    requires Increasing(newer) && older <= newer
    ensures Holds(db, newer, n) && |older| < n && a.ready ==>
              Run(db, older, a) == (if older == [] && newer[n - 1].version <= 0 then Done else Refused, db)
    ensures Holds(db, older, n) ==> Holds(db, newer, n)
    ensures Holds(db, older, n) && Run(db, newer, a).0.Done? ==> Holds(Run(db, newer, a).1, newer, |newer|)
  {
    if Holds(db, newer, n) && |older| < n && a.ready {
      NewerIff(db, older, newer, n);
    }
    if Holds(db, older, n) {
      assert older[..n] == newer[..n];
      var end := RunExtendsPrefix(db, newer, n, a);
    }
  }

  lemma NewerIff(db: Db, older: seq<Migration>, newer: seq<Migration>, n: nat)
    requires Increasing(newer) && older <= newer && Holds(db, newer, n) && |older| < n
    ensures Newer(db, older) <==> older != [] || newer[n - 1].version > 0
  {
    assert newer[n - 1].version in db.recorded;
    assert older != [] ==> older[|older| - 1] == newer[|older| - 1];
    forall v | v in db.recorded ensures v <= newer[n - 1].version {
      var i :| 0 <= i < n && newer[..n][i].version == v;
    }
  }

  /** One start of some binary. */
  datatype Start = Start(migs: seq<Migration>, attempt: Attempt)

  function AfterStarts(db: Db, starts: seq<Start>): Db
  {
    if starts == [] then db
    else
      var last := starts[|starts| - 1];
      Run(AfterStarts(db, starts[..|starts| - 1]), last.migs, last.attempt).1
  }

  /** Crash recovery across deployments: after any number of starts, of any versions of the
      binary, rolled forward and back, however each ended, the database holds a prefix of the
      one append-only list, every migration applied once and in order. */
  lemma {:induction false} AlwaysAPrefix(all: seq<Migration>, starts: seq<Start>) returns (n: nat)
    requires Increasing(all) && forall i :: 0 <= i < |starts| ==> starts[i].migs <= all
    ensures Holds(AfterStarts(EMPTY, starts), all, n)
  {
    if starts == [] {
      n := 0;
    } else {
      var init, last := starts[..|starts| - 1], starts[|starts| - 1];
      n := AlwaysAPrefix(all, init);
      n := OneStart(AfterStarts(EMPTY, init), all, n, last);
    }
  }

  /** A start never takes anything back. */
  lemma OneStart(db: Db, all: seq<Migration>, n: nat, start: Start) returns (end: nat)
    requires Increasing(all) && start.migs <= all && Holds(db, all, n)
    ensures n <= end && Holds(Run(db, start.migs, start.attempt).1, all, end)
  {
    if |start.migs| < n {
      OlderRefusesNewerResumes(db, start.migs, all, n, start.attempt);
      end := n;
    } else {
      assert start.migs[..n] == all[..n] && forall i :: 0 <= i < n ==> start.migs[i] == all[i];
      end := RunExtendsPrefix(db, start.migs, n, start.attempt);
      assert start.migs[..end] == all[..end] && forall i :: 0 <= i < end ==> start.migs[i] == all[i];
    }
  }

  // ---- A list that is not append-only ----

  /** What is not recorded yet, in the list's order. */
  function Missing(migs: seq<Migration>, recorded: set<int>): seq<Migration>
  {
    if migs == [] then []
    else if migs[0].version in recorded then Missing(migs[1..], recorded)
    else [migs[0]] + Missing(migs[1..], recorded)
  }

  /** A database in version order whose every recorded version the binary has. */
  ghost predicate InOrder(db: Db, migs: seq<Migration>)
  {
    && Increasing(db.schema) && db.recorded.Keys == VersionsOf(db.schema)
    && db.recorded.Keys <= VersionsOf(migs)
  }

  /** A run that succeeds applies what is missing on top of what is there. */
  lemma {:induction false} DoneAppliesMissing(applied: map<int, string>, db: Db, migs: seq<Migration>, i: nat,
                                              a: Attempt)
    requires i <= |migs| && RunFrom(applied, db, migs, i, a).0.Done?
    ensures RunFrom(applied, db, migs, i, a).1.schema == db.schema + Missing(migs[i..], applied.Keys)
    decreases |migs| - i
  {
    if i < |migs| {
      assert migs[i..][0] == migs[i] && migs[i..][1..] == migs[i + 1..];
      var m := migs[i];
      if m.version in applied {
        DoneAppliesMissing(applied, db, migs, i + 1, a);
      } else {
        DoneAppliesMissing(applied, Applied(db, m), migs, i + 1, a);
      }
    }
  }

  lemma {:induction false} MissingAre(migs: seq<Migration>, recorded: set<int>)
    ensures forall m :: m in Missing(migs, recorded) <==> m in migs && m.version !in recorded
    ensures Increasing(migs) ==> Increasing(Missing(migs, recorded))
  {
    if migs != [] {
      MissingAre(migs[1..], recorded);
      assert migs == [migs[0]] + migs[1..];
      if Increasing(migs) {
        Parted(migs);
        Prepended(migs[0], Missing(migs[1..], recorded));
      }
    }
  }

  /** The first recorded migration from place i on whose file was edited since. */
  function FirstEdited(recorded: map<int, string>, migs: seq<Migration>, i: nat): (e: nat)
    requires i <= |migs|
    ensures i <= e <= |migs|
    decreases |migs| - i
  {
    if i == |migs| || (migs[i].version in recorded && recorded[migs[i].version] != migs[i].checksum) then i
    else FirstEdited(recorded, migs, i + 1)
  }

  /** A run is refused exactly for a newer database, or when everything missing before the first
      edited file commits; it has then applied just that, so nothing exactly when all the
      versions before that file are recorded. */
  lemma RefusedIff(db: Db, migs: seq<Migration>, a: Attempt)
    requires a.ready
    ensures var e, r := FirstEdited(db.recorded, migs, 0), Run(db, migs, a);
            && (r.0.Refused? <==>
                  || Newer(db, migs)
                  || (e < |migs| && forall k :: 0 <= k < e && migs[k].version !in db.recorded ==> a.fates(k).Commits?))
            && (r.0.Refused? && !Newer(db, migs) ==> r.1.schema == db.schema + Missing(migs[..e], db.recorded.Keys))
            && (r.0.Refused? ==>
                  (r.1 == db <==> Newer(db, migs) || forall k :: 0 <= k < e ==> migs[k].version in db.recorded))
  {
    if !Newer(db, migs) {
      var e := FirstEdited(db.recorded, migs, 0);
      RefusedFrom(db.recorded, db, migs, 0, a);
      assert migs[0..e] == migs[..e];
      NoneMissingIff(migs[..e], db.recorded.Keys);
      assert forall k :: 0 <= k < e ==> migs[..e][k] == migs[k];
    }
  }

  lemma {:induction false} NoneMissingIff(migs: seq<Migration>, recorded: set<int>)
    ensures Missing(migs, recorded) == [] <==> forall k :: 0 <= k < |migs| ==> migs[k].version in recorded
  {
    MissingAre(migs, recorded);
    assert forall k :: 0 <= k < |migs| ==> migs[k] in migs;
    if Missing(migs, recorded) != [] {
      assert Missing(migs, recorded)[0] in Missing(migs, recorded);
    }
  }

  lemma {:induction false} RefusedFrom(applied: map<int, string>, db: Db, migs: seq<Migration>, i: nat, a: Attempt)
    requires i <= |migs|
    ensures var e, r := FirstEdited(applied, migs, i), RunFrom(applied, db, migs, i, a);
            && (r.0.Refused? <==>
                  e < |migs| && forall k :: i <= k < e && migs[k].version !in applied ==> a.fates(k).Commits?)
            && (r.0.Refused? ==> r.1.schema == db.schema + Missing(migs[i..e], applied.Keys))
            && (r.0.Refused? && Missing(migs[i..e], applied.Keys) == [] ==> r.1 == db)
    decreases |migs| - i
  {
    var e := FirstEdited(applied, migs, i);
    if i < e {
      var m := migs[i];
      assert migs[i..e][0] == m && migs[i..e][1..] == migs[i + 1..e];
      RefusedFrom(applied, if m.version in applied then db else Applied(db, m), migs, i + 1, a);
    }
  }

  /** Append-only is what the order rests on: a run that succeeds (so finds no file edited) on a database in version
      order leaves it in version order exactly when the versions recorded before were the
      first of the list. */
  lemma InOrderIff(db: Db, migs: seq<Migration>, a: Attempt)
    requires Increasing(migs) && InOrder(db, migs) && Run(db, migs, a).0.Done?
    ensures Run(db, migs, a).1.schema == db.schema + Missing(migs, db.recorded.Keys)
    ensures Increasing(Run(db, migs, a).1.schema) <==> exists n :: SameVersions(db, migs, n)
  {
    assert migs[0..] == migs;
    DoneAppliesMissing(db.recorded, db, migs, 0, a);
    MissingAre(migs, db.recorded.Keys);
    Joined(db.schema, Missing(migs, db.recorded.Keys));
    if n :| SameVersions(db, migs, n) {
      FirstsAreBelow(db, migs, n);
    }
    if forall x, y :: x in db.schema && y in Missing(migs, db.recorded.Keys) ==> x.version < y.version {
      BelowAreFirsts(db, migs);
    }
  }

  /** Two increasing lists one after the other are increasing when the first is below the second. */
  lemma Joined(xs: seq<Migration>, ys: seq<Migration>)
    requires Increasing(xs) && Increasing(ys)
    ensures Increasing(xs + ys) <==> forall x, y :: x in xs && y in ys ==> x.version < y.version
  {
    if Increasing(xs + ys) {
      forall x, y | x in xs && y in ys ensures x.version < y.version {
        var i :| 0 <= i < |xs| && xs[i] == x;
        var j :| 0 <= j < |ys| && ys[j] == y;
        assert (xs + ys)[i] == x && (xs + ys)[|xs| + j] == y;
      }
    }
  }

  lemma AmongFirsts(migs: seq<Migration>, n: nat, j: nat)
    requires j < n <= |migs|
    ensures migs[j].version in VersionsOf(migs[..n])
  {
    assert migs[..n][j] == migs[j];
  }

  lemma FirstsAreBelow(db: Db, migs: seq<Migration>, n: nat)
    requires Increasing(migs) && InOrder(db, migs) && SameVersions(db, migs, n)
    ensures forall x, y :: x in db.schema && y in migs && y.version !in db.recorded ==> x.version < y.version
  {
    forall x, y | x in db.schema && y in migs && y.version !in db.recorded ensures x.version < y.version {
      assert x.version in VersionsOf(db.schema);
      var i :| 0 <= i < n && migs[..n][i].version == x.version;
      var j :| 0 <= j < |migs| && migs[j] == y;
      if j < n {
        AmongFirsts(migs, n, j);
        assert false;
      }
    }
  }

  lemma BelowAreFirsts(db: Db, migs: seq<Migration>)
    requires Increasing(migs) && InOrder(db, migs)
    requires forall x, y :: x in db.schema && y in migs && y.version !in db.recorded ==> x.version < y.version
    ensures exists n :: SameVersions(db, migs, n)
  {
    var n := 0;
    while n < |migs| && migs[n].version in db.recorded
      invariant n <= |migs| && forall i :: 0 <= i < n ==> migs[i].version in db.recorded
    {
      n := n + 1;
    }
    forall v | v in db.recorded ensures v in VersionsOf(migs[..n]) {
      assert v in VersionsOf(migs) && v in VersionsOf(db.schema);
      var j :| 0 <= j < |migs| && migs[j].version == v;
      var k :| 0 <= k < |db.schema| && db.schema[k].version == v;
      assert j < n;
      assert migs[..n][j].version == v;
    }
    assert SameVersions(db, migs, n);
  }

  /** So a migration added below the last applied one is applied out of order. */
  lemma InsertedBelowIsOutOfOrder(db: Db, older: seq<Migration>, newer: seq<Migration>, added: Migration, a: Attempt)
    requires Increasing(older) && Increasing(newer) && older != [] && Holds(db, older, |older|)
    requires (forall m :: m in older ==> m in newer) && added in newer && added.version !in VersionsOf(older)
    requires added.version < older[|older| - 1].version && Run(db, newer, a).0.Done?
    ensures !Increasing(Run(db, newer, a).1.schema)
  {
    assert older[..|older|] == older;
    forall v | v in VersionsOf(older) ensures v in VersionsOf(newer) {
      var i :| 0 <= i < |older| && older[i].version == v;
      assert older[i] in newer;
    }
    InOrderIff(db, newer, a);
    MissingAre(newer, db.recorded.Keys);
    Joined(older, Missing(newer, db.recorded.Keys));
  }
}
