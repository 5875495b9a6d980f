/**
 The migration runner: the files of a directory that are named like migrations, in the order of their
 numbers, each run once and recorded, all in one transaction. What a script does to the schema is
 given by the scripts run so far, oldest first.
 */
module Migrations {
  import opened Wrappers
  import opened Texts
  import opened Sorting

  /** ledger: the schema_migrations table, None before it is created. */
  datatype Schema = Schema(ledger: Option<seq<Text>>, executed: seq<Text>)

  /** The names of a directory, and what the files hold. */
  datatype Directory = Directory(names: seq<Text>, content: Text -> Text)

  datatype Outcome = Done | Failed | FailedTwice

  // ---- names ----

  const UNDERSCORE: CodeUnit := 95
  const SUFFIX := Units(".sql")

  predicate IsWordUnit(c: CodeUnit) { 97 <= c <= 122 || IsDigit(c) || c == UNDERSCORE }

  function DigitCount(name: Text): (n: nat)
    ensures n <= |name| && forall i :: 0 <= i < n ==> IsDigit(name[i])
    ensures n < |name| ==> !IsDigit(name[n])
  {
    if name != [] && IsDigit(name[0]) then 1 + DigitCount(name[1..]) else 0
  }

  /** Digits, an underscore, at least one of a-z, 0-9 and underscore, and ".sql". */
  predicate IsMigrationFile(name: Text) {
    var n := DigitCount(name);
    && n >= 1 && n + 2 + |SUFFIX| <= |name|
    && name[n] == UNDERSCORE
    && (forall i :: n < i < |name| - |SUFFIX| ==> IsWordUnit(name[i]))
    && name[|name| - |SUFFIX|..] == SUFFIX
  }

  function Version(name: Text): Text
    requires |name| >= |SUFFIX|
  {
    name[..|name| - |SUFFIX|]
  }

  function Number(name: Text): nat { Decimal(name[..DigitCount(name)]) }

  function ByNumber(): (Text, Text) -> bool { (a, b) => Number(a) < Number(b) }

  function Keep<T(!new)>(xs: seq<T>, p: T -> bool): (r: seq<T>)
    ensures forall x :: x in r <==> x in xs && p(x)
  {
    if xs == [] then []
    else if p(xs[0]) then [xs[0]] + Keep(xs[1..], p)
    else Keep(xs[1..], p)
  }

  predicate AllMigrations(files: seq<Text>) {
    forall i :: 0 <= i < |files| ==> IsMigrationFile(files[i])
  }

  function ListMigrationFiles(names: seq<Text>): (r: seq<Text>)
    ensures forall x :: x in r <==> x in names && IsMigrationFile(x)
    ensures AllMigrations(r)
  {
    var files := Keep(names, IsMigrationFile);
    SortKeepsElements(files, ByNumber());
    var r := Sort(files, ByNumber());
    assert forall i :: 0 <= i < |r| ==> r[i] in r;
    r
  }

  lemma SortKeepsElements<T(!new)>(xs: seq<T>, less: (T, T) -> bool)
    ensures forall x :: x in Sort(xs, less) <==> x in xs
  {
    SortPermutes(xs, less);
    forall x ensures x in Sort(xs, less) <==> x in xs {
      assert x in multiset(Sort(xs, less)) <==> x in multiset(xs);
    }
  }

  // ---- the effect of a run ----

  function Versions(files: seq<Text>): seq<Text>
    requires AllMigrations(files)
  {
    seq(|files|, (i: nat) requires i < |files| => Version(files[i]))
  }

  function Scripts(files: seq<Text>, content: Text -> Text): seq<Text> {
    seq(|files|, (i: nat) requires i < |files| => content(files[i]))
  }

  /** What a run still has to do. */
  function Missing(files: seq<Text>, ledger: seq<Text>): (r: seq<Text>)
    requires AllMigrations(files)
    ensures AllMigrations(r)
  {
    if files == [] then []
    else if Version(files[0]) in ledger then Missing(files[1..], ledger)
    else [files[0]] + Missing(files[1..], ledger)
  }

  function Ledger(schema: Schema): seq<Text> {
    if schema.ledger.Some? then schema.ledger.value else []
  }

  /** Exactly the missing versions, in the order of their numbers, each run and recorded. */
  function Applied(schema: Schema, files: seq<Text>, content: Text -> Text): Schema
    requires AllMigrations(files)
  {
    var missing := Missing(files, Ledger(schema));
    Schema(Some(Ledger(schema) + Versions(missing)), schema.executed + Scripts(missing, content))
  }

  function Migrated(schema: Schema, directory: Directory): Schema {
    Applied(schema, ListMigrationFiles(directory.names), directory.content)
  }

  predicate NoTwice<T(==)>(xs: seq<T>) {
    forall i, j :: 0 <= i < j < |xs| ==> xs[i] != xs[j]
  }

  // ---- every version once ----

  lemma VersionsDiffer(a: Text, b: Text)
    requires IsMigrationFile(a) && IsMigrationFile(b) && Version(a) == Version(b)
    ensures a == b
  {
    assert a == Version(a) + SUFFIX && b == Version(b) + SUFFIX;
  }

  lemma {:induction false} InsertedOnce(x: Text, sorted: seq<Text>, less: (Text, Text) -> bool)
    requires NoTwice(sorted) && x !in sorted
    ensures NoTwice(Insert(x, sorted, less))
    ensures forall y :: y in Insert(x, sorted, less) <==> y == x || y in sorted
  {
    if sorted != [] && less(sorted[0], x) {
      InsertedOnce(x, sorted[1..], less);
      assert sorted[0] in sorted && sorted[0] !in sorted[1..];
    }
  }

  lemma {:induction false} SortedOnce(xs: seq<Text>, less: (Text, Text) -> bool)
    requires NoTwice(xs)
    ensures NoTwice(Sort(xs, less))
  {
    if xs != [] {
      SortedOnce(xs[1..], less);
      SortKeepsElements(xs[1..], less);
      InsertedOnce(xs[0], Sort(xs[1..], less), less);
    }
  }

  lemma {:induction false} KeptOnce(xs: seq<Text>, p: Text -> bool)
    requires NoTwice(xs)
    ensures NoTwice(Keep(xs, p))
  {
    if xs != [] { KeptOnce(xs[1..], p); }
  }

  lemma ListedOnce(names: seq<Text>)
    requires NoTwice(names)
    ensures NoTwice(ListMigrationFiles(names))
  {
    KeptOnce(names, IsMigrationFile);
    SortedOnce(Keep(names, IsMigrationFile), ByNumber());
  }

  lemma {:induction false} MissingConcat(a: seq<Text>, b: seq<Text>, ledger: seq<Text>)
    requires AllMigrations(a) && AllMigrations(b)
    ensures Missing(a + b, ledger) == Missing(a, ledger) + Missing(b, ledger)
  {
    if a == [] {
      assert a + b == b;
    } else {
      assert (a + b)[1..] == a[1..] + b;
      MissingConcat(a[1..], b, ledger);
    }
  }

  lemma {:induction false} MissingHolds(files: seq<Text>, ledger: seq<Text>)
    requires AllMigrations(files)
    ensures forall f :: f in Missing(files, ledger) <==> f in files && Version(f) !in ledger
    ensures NoTwice(files) ==> NoTwice(Missing(files, ledger))
  {
    if files != [] {
      MissingHolds(files[1..], ledger);
      assert files == [files[0]] + files[1..];
    }
  }

  lemma InVersions(files: seq<Text>, v: Text)
    requires AllMigrations(files)
    ensures v in Versions(files) <==> exists f :: f in files && Version(f) == v
  {
    if v in Versions(files) {
      var i :| 0 <= i < |files| && Versions(files)[i] == v;
      assert files[i] in files;
    }
    if f :| f in files && Version(f) == v {
      var i :| 0 <= i < |files| && files[i] == f;
      assert Versions(files)[i] == v;
    }
  }

  lemma AppliedNothing(schema: Schema, content: Text -> Text)
    ensures Applied(schema, [], content) == Schema(Some(Ledger(schema)), schema.executed)
    ensures Schema(Some(Ledger(schema) + Versions([])), schema.executed + Scripts([], content))
         == Schema(Some(Ledger(schema)), schema.executed)
  {
    assert Ledger(schema) + Versions([]) == Ledger(schema);
    assert schema.executed + Scripts([], content) == schema.executed;
  }

  /** A file's version is recorded by no file before it. */
  lemma NotRecordedBefore(files: seq<Text>, i: nat, ledger: seq<Text>)
    requires AllMigrations(files) && NoTwice(files) && i < |files|
    ensures Version(files[i]) !in Versions(Missing(files[..i], ledger))
  {
    var missing := Missing(files[..i], ledger);
    MissingHolds(files[..i], ledger);
    InVersions(missing, Version(files[i]));
    forall f | f in missing ensures Version(f) != Version(files[i]) {
      if Version(f) == Version(files[i]) { VersionsDiffer(f, files[i]); }
    }
  }

  lemma NotMissingBefore(schema: Schema, files: seq<Text>, i: nat, content: Text -> Text)
    requires AllMigrations(files) && NoTwice(files) && i < |files|
    ensures Version(files[i]) in Ledger(Applied(schema, files[..i], content)) <==> Version(files[i]) in Ledger(schema)
  {
    NotRecordedBefore(files, i, Ledger(schema));
  }

  lemma MissingStep(files: seq<Text>, i: nat, ledger: seq<Text>)
    requires AllMigrations(files) && i < |files|
    ensures Missing(files[..i + 1], ledger) == Missing(files[..i], ledger) + if Version(files[i]) in ledger then [] else [files[i]]
  {
    assert files[..i + 1] == files[..i] + [files[i]];
    MissingConcat(files[..i], [files[i]], ledger);
  }

  /** One more file: skipped if recorded, otherwise run and recorded. */
  function WithFile(before: Schema, file: Text, content: Text -> Text): Schema
    requires IsMigrationFile(file)
  {
    if Version(file) in Ledger(before) then before
    else Schema(Some(Ledger(before) + [Version(file)]), before.executed + [content(file)])
  }

  lemma AppliedStep(schema: Schema, files: seq<Text>, i: nat, content: Text -> Text)
    requires AllMigrations(files) && NoTwice(files) && i < |files|
    ensures Applied(schema, files[..i + 1], content) == WithFile(Applied(schema, files[..i], content), files[i], content)
  {
    var ledger := Ledger(schema);
    NotRecordedBefore(files, i, ledger);
    MissingStep(files, i, ledger);
    AppliedMore(schema, Missing(files[..i], ledger), files[i], content);
  }

  lemma AppliedMore(schema: Schema, missing: seq<Text>, file: Text, content: Text -> Text)
    requires AllMigrations(missing) && IsMigrationFile(file)
    ensures missing + [] == missing
    ensures Ledger(schema) + Versions(missing + [file]) == Ledger(schema) + Versions(missing) + [Version(file)]
    ensures schema.executed + Scripts(missing + [file], content) == schema.executed + Scripts(missing, content) + [content(file)]
  {
    assert Versions(missing + [file]) == Versions(missing) + [Version(file)];
    assert Scripts(missing + [file], content) == Scripts(missing, content) + [content(file)];
  }

  // ---- the runner ----

  /** The calls of the loop succeed: a SELECT per file, and for a missing one readFile, the script and INSERT. */
  predicate FileCalls(files: seq<Text>, ledger: seq<Text>, fails: nat -> bool, first: nat)
    requires AllMigrations(files)
  {
    forall i :: 0 <= i < |files| ==> FileCall(files[i], ledger, fails, first + 4 * i)
  }

  predicate FileCall(file: Text, ledger: seq<Text>, fails: nat -> bool, call: nat)
    requires IsMigrationFile(file)
  {
    !fails(call) && (Version(file) !in ledger ==> !fails(call + 1) && !fails(call + 2) && !fails(call + 3))
  }

  lemma FileCallsStep(files: seq<Text>, i: nat, ledger: seq<Text>, fails: nat -> bool, first: nat)
    requires AllMigrations(files) && i < |files|
    ensures FileCalls(files[..i + 1], ledger, fails, first) <==>
      FileCalls(files[..i], ledger, fails, first) && FileCall(files[i], ledger, fails, first + 4 * i)
  {
    var some, more := files[..i], files[..i + 1];
    assert forall j :: 0 <= j < i ==> some[j] == more[j];
    assert more[i] == files[i];
  }

  /** Where the loop stands before file i. */
  predicate Through(schema: Schema, files: seq<Text>, i: nat, content: Text -> Text, fails: nat -> bool, first: nat, ok: bool, work: Schema)
    requires AllMigrations(files) && i <= |files|
  {
    (ok <==> FileCalls(files[..i], Ledger(schema), fails, first)) && (ok ==> work == Applied(schema, files[..i], content))
  }

  lemma ThroughNone(schema: Schema, files: seq<Text>, content: Text -> Text, fails: nat -> bool, first: nat)
    requires AllMigrations(files)
    ensures Through(schema, files, 0, content, fails, first, true, Schema(Some(Ledger(schema)), schema.executed))
  {
    AppliedNothing(schema, content);
    assert files[..0] == [];
  }

  lemma ThroughOneMore(schema: Schema, files: seq<Text>, i: nat, content: Text -> Text, fails: nat -> bool, first: nat,
                       before: Schema, ok: bool, after: Schema)
    requires AllMigrations(files) && NoTwice(files) && i < |files|
    requires Through(schema, files, i, content, fails, first, true, before)
    requires ok <==> FileCall(files[i], Ledger(before), fails, first + 4 * i)
    requires ok ==> after == WithFile(before, files[i], content)
    ensures Through(schema, files, i + 1, content, fails, first, ok, after)
  {
    AppliedStep(schema, files, i, content);
    NotMissingBefore(schema, files, i, content);
    FileCallsStep(files, i, Ledger(schema), fails, first);
  }

  /** The loop ends behind the last file, or at the first call that fails. */
  lemma ThroughAll(schema: Schema, files: seq<Text>, i: nat, content: Text -> Text, fails: nat -> bool, first: nat, ok: bool, work: Schema)
    requires AllMigrations(files) && i <= |files| && (ok ==> i == |files|)
    requires Through(schema, files, i, content, fails, first, ok, work)
    ensures ok <==> FileCalls(files, Ledger(schema), fails, first)
    ensures ok ==> work == Applied(schema, files, content)
  {
    assert files[..|files|] == files;
    assert forall j :: 0 <= j < i ==> files[..i][j] == files[j];
  }

  function CommitCall(directory: Directory): nat {
    3 + 4 * |ListMigrationFiles(directory.names)|
  }

  /** Connection, BEGIN, CREATE TABLE IF NOT EXISTS and the calls of the files succeed: COMMIT is asked for. */
  predicate AsksToCommit(schema: Schema, directory: Directory, fails: nat -> bool) {
    !fails(0) && !fails(1) && !fails(2) && FileCalls(ListMigrationFiles(directory.names), Ledger(schema), fails, 3)
  }

  function OutcomeOf(schema: Schema, directory: Directory, fails: nat -> bool, rollbackFails: bool): Outcome {
    if AsksToCommit(schema, directory, fails) && !fails(CommitCall(directory)) then Done
    else if !fails(0) && rollbackFails then FailedTwice
    else Failed
  }

  /** A COMMIT that succeeds takes effect; one that fails may have taken effect all the same. */
  function SchemaAfter(schema: Schema, directory: Directory, fails: nat -> bool, commitLands: bool): Schema {
    if AsksToCommit(schema, directory, fails) && (!fails(CommitCall(directory)) || commitLands) then Migrated(schema, directory)
    else schema
  }

  class Database {
    var schema: Schema

    constructor ()
      ensures schema == Schema(None, [])
    {
      schema := Schema(None, []);
    }

    /** One turn of the loop: SELECT, and for a missing version readFile, the script and INSERT. */
    method ApplyFile(file: Text, content: Text -> Text, fails: nat -> bool, call: nat, before: Schema) returns (ok: bool, after: Schema)
      requires IsMigrationFile(file)
      ensures ok <==> FileCall(file, Ledger(before), fails, call)
      ensures ok ==> after == WithFile(before, file, content)
    {
      after, ok := before, !fails(call);
      if ok && Version(file) !in Ledger(before) {
        ok := !fails(call + 1) && !fails(call + 2) && !fails(call + 3);
        after := Schema(Some(Ledger(before) + [Version(file)]), before.executed + [content(file)]);
      }
    }

    /** The loop over the files, on the transaction's own view of the schema. */
    method ApplyMissing(files: seq<Text>, content: Text -> Text, fails: nat -> bool, first: nat) returns (ok: bool, work: Schema)
      requires AllMigrations(files) && NoTwice(files)
      ensures ok <==> FileCalls(files, Ledger(schema), fails, first)
      ensures ok ==> work == Applied(schema, files, content)
    {
      work, ok := Schema(Some(Ledger(schema)), schema.executed), true;
      var i, next := 0, first;
      ThroughNone(schema, files, content, fails, first);
      while ok && i < |files|
        invariant 0 <= i <= |files| && next == first + 4 * i
        invariant Through(schema, files, i, content, fails, first, ok, work)
        decreases |files| - i
      {
        ghost var before := work;
        ok, work := ApplyFile(files[i], content, fails, next, work);
        ThroughOneMore(schema, files, i, content, fails, first, before, ok, work);
        i, next := i + 1, next + 4;
      }
      ThroughAll(schema, files, i, content, fails, first, ok, work);
    }

    /** BEGIN, CREATE TABLE IF NOT EXISTS and the loop, on an open connection; nothing is committed. */
    method Transact(directory: Directory, fails: nat -> bool) returns (ok: bool, work: Schema)
      requires NoTwice(directory.names) && !fails(0)
      ensures ok <==> AsksToCommit(schema, directory, fails)
      ensures ok ==> work == Migrated(schema, directory)
    {
      ListedOnce(directory.names);
      ok, work := !fails(1) && !fails(2), schema;
      if ok {
        ok, work := ApplyMissing(ListMigrationFiles(directory.names), directory.content, fails, 3);
      }
    }

    /**
     `fails` says which calls fail, counted from the connection on, the ROLLBACK apart. The
     transaction's changes are invisible until its COMMIT takes effect.
     */
    method RunMigrations(directory: Directory, fails: nat -> bool, commitLands: bool, rollbackFails: bool) returns (outcome: Outcome)
      requires NoTwice(directory.names)
      modifies this
      ensures outcome == OutcomeOf(old(schema), directory, fails, rollbackFails)
      ensures schema == SchemaAfter(old(schema), directory, fails, commitLands)
    {
      if fails(0) { return Failed; }
      var ok, work := Transact(directory, fails);
      if ok {
        ok := !fails(CommitCall(directory));
        if ok || commitLands { schema := work; }
        if ok { return Done; }
      }
      outcome := if rollbackFails then FailedTwice else Failed;
    }
  }

  // ---- failed runs ----

  lemma MigratedSame(schema: Schema, directory: Directory)
    ensures Migrated(schema, directory) == schema <==>
      schema.ledger.Some? && Missing(ListMigrationFiles(directory.names), Ledger(schema)) == []
  {
    var missing := Missing(ListMigrationFiles(directory.names), Ledger(schema));
    AppliedNothing(schema, directory.content);
    assert |Ledger(Migrated(schema, directory))| == |Ledger(schema)| + |missing|;
  }

  /**
   A run that fails changes nothing, if and only if it did not come to its COMMIT, or the COMMIT did
   not take effect, or the table was there and nothing was missing.
   */
  lemma FailedRunChangesNothing(schema: Schema, directory: Directory, fails: nat -> bool, commitLands: bool, rollbackFails: bool)
    requires OutcomeOf(schema, directory, fails, rollbackFails) != Done
    ensures SchemaAfter(schema, directory, fails, commitLands) == schema <==>
      || !AsksToCommit(schema, directory, fails) || !commitLands
      || (schema.ledger.Some? && Missing(ListMigrationFiles(directory.names), Ledger(schema)) == [])
  {
    MigratedSame(schema, directory);
  }

  /** Only the reply to the COMMIT is lost: the run reports a failure, and the new database has its table. */
  lemma LostReplyIsNotRolledBack(directory: Directory)
    ensures var empty, fails := Schema(None, []), (k: nat) => k == CommitCall(directory);
      && OutcomeOf(empty, directory, fails, false) == Failed
      && SchemaAfter(empty, directory, fails, true) == Migrated(empty, directory) != empty
  {
  }

  // ---- what runs compose to ----

  lemma NumbersOrder()
    ensures Orders(ByNumber())
  {
  }

  /** What a run applies it applies in ascending order of the numbers. */
  lemma {:induction false} MissingAscends(files: seq<Text>, ledger: seq<Text>)
    requires AllMigrations(files) && Ascending(files, ByNumber())
    ensures Ascending(Missing(files, ledger), ByNumber())
  {
    if files != [] {
      MissingAscends(files[1..], ledger);
      MissingHolds(files[1..], ledger);
      forall f | f in files[1..] ensures Number(files[0]) <= Number(f) {
        var i :| 0 <= i < |files[1..]| && files[1..][i] == f;
        assert !ByNumber()(files[i + 1], files[0]);
      }
    }
  }

  /** A run records exactly the versions of the directory it did not find, in ascending order, and none twice. */
  lemma RunAppliesExactlyTheMissing(schema: Schema, directory: Directory)
    requires NoTwice(directory.names) && NoTwice(Ledger(schema))
    ensures var files := ListMigrationFiles(directory.names);
      var missing := Missing(files, Ledger(schema));
      && (forall f :: f in missing <==> f in directory.names && IsMigrationFile(f) && Version(f) !in Ledger(schema))
      && (forall i, j :: 0 <= i < j < |missing| ==> missing[i] != missing[j] && Number(missing[i]) <= Number(missing[j]))
      && Ledger(Migrated(schema, directory)) == Ledger(schema) + Versions(missing)
      && NoTwice(Ledger(Migrated(schema, directory)))
  {
    var files := ListMigrationFiles(directory.names);
    var missing := Missing(files, Ledger(schema));
    ListedOnce(directory.names);
    MissingHolds(files, Ledger(schema));
    NumbersOrder();
    SortAscends(Keep(directory.names, IsMigrationFile), ByNumber());
    MissingAscends(files, Ledger(schema));
    forall i, j | 0 <= i < j < |missing| ensures missing[i] != missing[j] && Number(missing[i]) <= Number(missing[j]) {
      assert !ByNumber()(missing[j], missing[i]);
    }
    RecordedOnce(Ledger(schema), missing);
  }

  lemma RecordedOnce(ledger: seq<Text>, missing: seq<Text>)
    requires NoTwice(ledger) && AllMigrations(missing) && NoTwice(missing)
    requires forall f :: f in missing ==> Version(f) !in ledger
    ensures NoTwice(ledger + Versions(missing))
  {
    var all := ledger + Versions(missing);
    forall i, j | 0 <= i < j < |all| ensures all[i] != all[j] {
      if |ledger| <= j {
        var f := missing[j - |ledger|];
        assert f in missing;
        if |ledger| <= i && all[i] == all[j] { VersionsDiffer(missing[i - |ledger|], f); }
      }
    }
  }

  lemma {:induction false} NothingMissing(files: seq<Text>, ledger: seq<Text>)
    requires AllMigrations(files) && forall f :: f in files ==> Version(f) in ledger
    ensures Missing(files, ledger) == []
  {
    if files != [] { NothingMissing(files[1..], ledger); }
  }

  lemma RecordedAfter(files: seq<Text>, ledger: seq<Text>, f: Text)
    requires AllMigrations(files) && f in files
    ensures Version(f) in ledger + Versions(Missing(files, ledger))
  {
    if Version(f) !in ledger {
      MissingHolds(files, ledger);
      InVersions(Missing(files, ledger), Version(f));
    }
  }

  /** A second run over the same names does nothing, whatever the files hold by then. */
  lemma RerunIsNoOp(schema: Schema, directory: Directory, content: Text -> Text)
    ensures Migrated(Migrated(schema, directory), directory.(content := content)) == Migrated(schema, directory)
  {
    var files := ListMigrationFiles(directory.names);
    var once := Migrated(schema, directory);
    forall f | f in files ensures Version(f) in Ledger(once) { RecordedAfter(files, Ledger(schema), f); }
    NothingMissing(files, Ledger(once));
    AppliedNothing(once, content);
  }

  // ---- growing directories ----

  lemma KeepCons(x: Text, rest: seq<Text>, p: Text -> bool)
    ensures Keep([x] + rest, p) == if p(x) then [x] + Keep(rest, p) else Keep(rest, p)
  {
    assert ([x] + rest)[1..] == rest;
  }

  lemma InsertCons(x: Text, y: Text, rest: seq<Text>, less: (Text, Text) -> bool)
    ensures Insert(x, [y] + rest, less) == if less(y, x) then [y] + Insert(x, rest, less) else [x] + ([y] + rest)
  {
    assert ([y] + rest)[1..] == rest;
  }

  lemma InsertFirst(x: Text, sorted: seq<Text>, less: (Text, Text) -> bool)
    requires forall f :: f in sorted ==> !less(f, x)
    ensures Insert(x, sorted, less) == [x] + sorted
  {
    if sorted != [] { assert sorted[0] in sorted; }
  }

  lemma FollowersFollow(sorted: seq<Text>, x: Text, less: (Text, Text) -> bool)
    requires Orders(less) && Ascending(sorted, less) && sorted != [] && !less(sorted[0], x)
    ensures forall f :: f in sorted ==> !less(f, x)
  {
    forall f | f in sorted ensures !less(f, x) {
      var j :| 0 <= j < |sorted| && sorted[j] == f;
      assert j > 0 ==> !less(sorted[j], sorted[0]);
    }
  }

  lemma {:induction false} KeepInsert(x: Text, sorted: seq<Text>, less: (Text, Text) -> bool, p: Text -> bool)
    requires Orders(less) && Ascending(sorted, less)
    ensures Keep(Insert(x, sorted, less), p) == if p(x) then Insert(x, Keep(sorted, p), less) else Keep(sorted, p)
  {
    if sorted == [] {
      KeepCons(x, [], p);
    } else if less(sorted[0], x) {
      KeepInsert(x, sorted[1..], less, p);
      KeepCons(sorted[0], Insert(x, sorted[1..], less), p);
      InsertCons(x, sorted[0], Keep(sorted[1..], p), less);
    } else {
      FollowersFollow(sorted, x, less);
      InsertFirst(x, Keep(sorted, p), less);
      KeepCons(x, sorted, p);
    }
  }

  /** The sort is stable, so leaving out files before or after it is the same. */
  lemma {:induction false} KeepSort(xs: seq<Text>, less: (Text, Text) -> bool, p: Text -> bool)
    requires Orders(less)
    ensures Keep(Sort(xs, less), p) == Sort(Keep(xs, p), less)
  {
    if xs != [] {
      SortAscends(xs[1..], less);
      KeepInsert(xs[0], Sort(xs[1..], less), less, p);
      KeepSort(xs[1..], less, p);
      if p(xs[0]) { SortCons(xs[0], Keep(xs[1..], p), less); }
    }
  }

  lemma SortCons(x: Text, rest: seq<Text>, less: (Text, Text) -> bool)
    ensures Sort([x] + rest, less) == Insert(x, Sort(rest, less), less)
  {
    assert ([x] + rest)[1..] == rest;
  }

  lemma {:induction false} KeepKeep(xs: seq<Text>, p: Text -> bool, q: Text -> bool)
    ensures Keep(Keep(xs, p), q) == Keep(Keep(xs, q), p)
  {
    if xs != [] {
      KeepKeep(xs[1..], p, q);
      KeepCons(xs[0], Keep(xs[1..], p), q);
      KeepCons(xs[0], Keep(xs[1..], q), p);
    }
  }

  function Not(p: Text -> bool): Text -> bool { f => !p(f) }

  /** The files of p come before all others. */
  predicate InFront(files: seq<Text>, p: Text -> bool) {
    forall i, j :: 0 <= i < j < |files| && p(files[j]) ==> p(files[i])
  }

  lemma {:induction false} NoneKept(files: seq<Text>, p: Text -> bool)
    requires forall i :: 0 <= i < |files| ==> !p(files[i])
    ensures Keep(files, p) == [] && Keep(files, Not(p)) == files
  {
    if files != [] {
      NoneKept(files[1..], p);
      assert files == [files[0]] + files[1..];
    }
  }

  lemma NoneInFront(files: seq<Text>, p: Text -> bool)
    requires files != [] && InFront(files, p) && !p(files[0])
    ensures forall i :: 0 <= i < |files| ==> !p(files[i])
  {
  }

  lemma FirstKept(files: seq<Text>, p: Text -> bool)
    requires files != [] && p(files[0])
    ensures Keep(files, p) + Keep(files, Not(p)) == [files[0]] + (Keep(files[1..], p) + Keep(files[1..], Not(p)))
    ensures files == [files[0]] + files[1..]
  {
  }

  lemma {:induction false} FrontIsConcatenated(files: seq<Text>, p: Text -> bool)
    requires InFront(files, p)
    ensures Keep(files, p) + Keep(files, Not(p)) == files
  {
    if files == [] {
    } else if p(files[0]) {
      TailInFront(files, p);
      FrontIsConcatenated(files[1..], p);
      FirstKept(files, p);
    } else {
      NoneInFront(files, p);
      NoneKept(files, p);
    }
  }

  lemma TailInFront(files: seq<Text>, p: Text -> bool)
    requires files != [] && InFront(files, p)
    ensures InFront(files[1..], p)
  {
    assert forall i :: 0 <= i < |files[1..]| ==> files[1..][i] == files[i + 1];
  }

  lemma NotInFront(files: seq<Text>, p: Text -> bool, i: nat, j: nat)
    requires i < j < |files| && p(files[j]) && !p(files[i])
    ensures !InFront(files, p)
  {
  }

  lemma ConcatenatedIsFront(files: seq<Text>, p: Text -> bool)
    requires Keep(files, p) + Keep(files, Not(p)) == files
    ensures InFront(files, p)
  {
    var front := Keep(files, p);
    forall i | 0 <= i < |files| ensures p(files[i]) <==> i < |front| {
      if i < |front| { assert files[i] == front[i]; } else { assert files[i] == Keep(files, Not(p))[i - |front|]; }
    }
  }

  lemma {:induction false} MissingOfKept(files: seq<Text>, ledger: seq<Text>, p: Text -> bool)
    requires AllMigrations(files) && AllMigrations(Keep(files, p))
    ensures Missing(Keep(files, p), ledger) == Keep(Missing(files, ledger), p)
  {
    if files != [] {
      assert AllMigrations(Keep(files[1..], p)) by { KeptAreMigrations(files[1..], p); }
      MissingOfKept(files[1..], ledger, p);
      if p(files[0]) { MissingCons(files[0], Keep(files[1..], p), ledger); }
      if Version(files[0]) !in ledger { KeepCons(files[0], Missing(files[1..], ledger), p); }
    }
  }

  lemma KeptAreMigrations(files: seq<Text>, p: Text -> bool)
    requires AllMigrations(files)
    ensures AllMigrations(Keep(files, p))
  {
    forall i | 0 <= i < |Keep(files, p)| ensures IsMigrationFile(Keep(files, p)[i]) { assert Keep(files, p)[i] in Keep(files, p); }
  }

  lemma MissingCons(f: Text, rest: seq<Text>, ledger: seq<Text>)
    requires IsMigrationFile(f) && AllMigrations(rest)
    ensures AllMigrations([f] + rest)
    ensures Missing([f] + rest, ledger) == if Version(f) in ledger then Missing(rest, ledger) else [f] + Missing(rest, ledger)
  {
    assert ([f] + rest)[1..] == rest;
  }

  /** What a later run still has to do, where `more` records exactly the files of p. */
  lemma {:induction false} MissingLater(files: seq<Text>, ledger: seq<Text>, more: seq<Text>, p: Text -> bool)
    requires AllMigrations(files)
    requires forall f :: f in files && Version(f) !in ledger ==> (Version(f) in more <==> p(f))
    ensures Missing(files, ledger + more) == Keep(Missing(files, ledger), Not(p))
  {
    if files != [] {
      MissingLater(files[1..], ledger, more, p);
      if Version(files[0]) !in ledger { KeepCons(files[0], Missing(files[1..], ledger), Not(p)); }
    }
  }

  lemma RecordedIfKept(files: seq<Text>, ledger: seq<Text>, p: Text -> bool, f: Text)
    requires AllMigrations(files) && f in files && Version(f) !in ledger
    ensures AllMigrations(Keep(Missing(files, ledger), p))
    ensures Version(f) in Versions(Keep(Missing(files, ledger), p)) <==> p(f)
  {
    var kept := Keep(Missing(files, ledger), p);
    KeptAreMigrations(Missing(files, ledger), p);
    MissingHolds(files, ledger);
    InVersions(kept, Version(f));
    forall g | g in kept && Version(g) == Version(f) ensures g == f { VersionsDiffer(g, f); }
  }

  lemma VersionsTell(a: seq<Text>, b: seq<Text>)
    requires AllMigrations(a) && AllMigrations(b) && Versions(a) == Versions(b)
    ensures a == b
  {
    assert |a| == |Versions(a)| == |Versions(b)| == |b|;
    forall i | 0 <= i < |a| ensures a[i] == b[i] {
      assert Versions(a)[i] == Versions(b)[i];
      VersionsDiffer(a[i], b[i]);
    }
  }

  /** Listing part of a directory gives the part of the listing. */
  lemma ListOfKept(names: seq<Text>, p: Text -> bool)
    ensures ListMigrationFiles(Keep(names, p)) == Keep(ListMigrationFiles(names), p)
  {
    NumbersOrder();
    KeepKeep(names, p, IsMigrationFile);
    KeepSort(Keep(names, IsMigrationFile), ByNumber(), p);
  }

  lemma AppliedTwice(schema: Schema, a: seq<Text>, b: seq<Text>, content: Text -> Text)
    requires AllMigrations(a) && AllMigrations(b)
    ensures Ledger(schema) + Versions(a) + Versions(b) == Ledger(schema) + Versions(a + b)
    ensures schema.executed + Scripts(a, content) + Scripts(b, content) == schema.executed + Scripts(a + b, content)
  {
    assert Versions(a + b) == Versions(a) + Versions(b);
    assert Scripts(a + b, content) == Scripts(a, content) + Scripts(b, content);
  }

  /** A run over the files of p and then one over all: first the missing ones of p, then the other missing ones. */
  lemma TwoRuns(schema: Schema, directory: Directory, p: Text -> bool)
    ensures var m := Missing(ListMigrationFiles(directory.names), Ledger(schema));
      var both := Keep(m, p) + Keep(m, Not(p));
      && AllMigrations(both)
      && Migrated(Migrated(schema, directory.(names := Keep(directory.names, p))), directory)
         == Schema(Some(Ledger(schema) + Versions(both)), schema.executed + Scripts(both, directory.content))
  {
    var files, ledger := ListMigrationFiles(directory.names), Ledger(schema);
    var m := Missing(files, ledger);
    KeptAreMigrations(m, p);
    KeptAreMigrations(m, Not(p));
    ListOfKept(directory.names, p);
    MissingOfKept(files, ledger, p);
    forall f | f in files && Version(f) !in ledger ensures Version(f) in Versions(Keep(m, p)) <==> p(f) {
      RecordedIfKept(files, ledger, p, f);
    }
    MissingLater(files, ledger, Versions(Keep(m, p)), p);
    AppliedTwice(schema, Keep(m, p), Keep(m, Not(p)), directory.content);
  }

  /**
   Migrating with part of a directory and later with all of it comes to the same as migrating once
   with all, if and only if no missing file of the part is listed after a missing file left out.
   */
  lemma PartsComposeIfInFront(schema: Schema, directory: Directory, p: Text -> bool)
    ensures Migrated(Migrated(schema, directory.(names := Keep(directory.names, p))), directory) == Migrated(schema, directory)
      <==> InFront(Missing(ListMigrationFiles(directory.names), Ledger(schema)), p)
  {
    var m := Missing(ListMigrationFiles(directory.names), Ledger(schema));
    var both := Keep(m, p) + Keep(m, Not(p));
    TwoRuns(schema, directory, p);
    if InFront(m, p) { FrontIsConcatenated(m, p); }
    if Ledger(schema) + Versions(both) == Ledger(schema) + Versions(m) {
      assert Versions(both) == (Ledger(schema) + Versions(both))[|Ledger(schema)|..];
      assert Versions(m) == (Ledger(schema) + Versions(m))[|Ledger(schema)|..];
      VersionsTell(both, m);
      ConcatenatedIsFront(m, p);
    }
  }

  function Below(n: nat): Text -> bool { f => Number(f) < n }

  lemma MissingInOrder(schema: Schema, directory: Directory, i: nat, j: nat)
    requires i < j < |Missing(ListMigrationFiles(directory.names), Ledger(schema))|
    ensures var m := Missing(ListMigrationFiles(directory.names), Ledger(schema)); Number(m[i]) <= Number(m[j])
  {
    var files := ListMigrationFiles(directory.names);
    NumbersOrder();
    SortAscends(Keep(directory.names, IsMigrationFile), ByNumber());
    MissingAscends(files, Ledger(schema));
    assert !ByNumber()(Missing(files, Ledger(schema))[j], Missing(files, Ledger(schema))[i]);
  }

  /** So files that come later with higher numbers do no harm. */
  lemma LaterFilesMayComeLater(schema: Schema, directory: Directory, n: nat)
    ensures Migrated(Migrated(schema, directory.(names := Keep(directory.names, Below(n)))), directory) == Migrated(schema, directory)
  {
    PartsComposeIfInFront(schema, directory, Below(n));
    var m := Missing(ListMigrationFiles(directory.names), Ledger(schema));
    forall i, j | 0 <= i < j < |m| && Below(n)(m[j]) ensures Below(n)(m[i]) { MissingInOrder(schema, directory, i, j); }
  }

  /** And one missing file that comes later with a lower number than one run before leads to another schema. */
  lemma EarlierFilesMayNot(schema: Schema, directory: Directory, p: Text -> bool, low: Text, high: Text)
    requires low in directory.names && IsMigrationFile(low) && Version(low) !in Ledger(schema) && !p(low)
    requires high in directory.names && IsMigrationFile(high) && Version(high) !in Ledger(schema) && p(high)
    requires Number(low) < Number(high)
    ensures Migrated(Migrated(schema, directory.(names := Keep(directory.names, p))), directory) != Migrated(schema, directory)
  {
    var i, j := LowBeforeHigh(schema, directory, low, high);
    NotInFront(Missing(ListMigrationFiles(directory.names), Ledger(schema)), p, i, j);
    PartsComposeIfInFront(schema, directory, p);
  }

  lemma LowBeforeHigh(schema: Schema, directory: Directory, low: Text, high: Text) returns (i: nat, j: nat)
    requires low in directory.names && IsMigrationFile(low) && Version(low) !in Ledger(schema)
    requires high in directory.names && IsMigrationFile(high) && Version(high) !in Ledger(schema)
    requires Number(low) < Number(high)
    ensures var m := Missing(ListMigrationFiles(directory.names), Ledger(schema)); i < j < |m| && m[i] == low && m[j] == high
  {
    var m := Missing(ListMigrationFiles(directory.names), Ledger(schema));
    assert low in m && high in m by { MissingHolds(ListMigrationFiles(directory.names), Ledger(schema)); }
    i :| 0 <= i < |m| && m[i] == low;
    j :| 0 <= j < |m| && m[j] == high;
    if j < i { MissingInOrder(schema, directory, j, i); }
  }

  const FIRST := Units("1_a.sql")
  const SECOND := Units("2_b.sql")

  lemma NamesAreMigrations()
    ensures IsMigrationFile(FIRST) && IsMigrationFile(SECOND) && Number(FIRST) == 1 && Number(SECOND) == 2
    ensures FIRST != SECOND
  {
    assert |SUFFIX| == 4;
    assert FIRST[0] == 49 && FIRST[1] == UNDERSCORE && FIRST[2] == 97;
    assert SECOND[0] == 50 && SECOND[1] == UNDERSCORE && SECOND[2] == 98;
    assert FIRST[3..] == SUFFIX && SECOND[3..] == SUFFIX;
    assert DigitCount(FIRST[1..]) == 0 && DigitCount(SECOND[1..]) == 0;
    DecimalStep(FIRST, 0);
    DecimalStep(SECOND, 0);
  }

  /** For instance: 2_b.sql alone, and later both. */
  lemma SecondThenBoth(content: Text -> Text)
    ensures var both := Directory([FIRST, SECOND], content);
      Migrated(Migrated(Schema(None, []), Directory([SECOND], content)), both) != Migrated(Schema(None, []), both)
  {
    NamesAreMigrations();
    var isSecond := (f: Text) => f == SECOND;
    KeepCons(FIRST, [SECOND], isSecond);
    assert [FIRST] + [SECOND] == [FIRST, SECOND] && Keep([SECOND], isSecond) == [SECOND];
    EarlierFilesMayNot(Schema(None, []), Directory([FIRST, SECOND], content), isSecond, FIRST, SECOND);
  }
}
