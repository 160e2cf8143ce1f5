/**
 Schema migrations: one transaction per file, recorded by name, over runs that may be cut off
 at any statement. `versions` are the rows of schema_migrations in commit order and `bodies`
 the migration files whose effects are committed; a transaction holds its work until Commit.
 */
module Migrations {
  import opened Text

  datatype Entry = Entry(name: string, isDir: bool)

  datatype Result = Done | Interrupted

  predicate IsMigration(e: Entry) {
    !e.isDir && |e.name| >= 4 && e.name[|e.name| - 4..] == ".sql"
  }

  /** The name is that of an entry that is no directory, and ends in ".sql". */
  ghost predicate IsFileOf(entries: seq<Entry>, name: string) {
    Entry(name, false) in entries && exists stem :: name == stem + ".sql"
  }

  predicate Sorted(names: seq<string>) {
    forall i, j | 0 <= i < j < |names| :: !Less(names[j], names[i])
  }

  predicate Distinct(names: seq<string>) {
    forall i, j | 0 <= i < j < |names| :: names[i] != names[j]
  }

  function InsertName(sorted: seq<string>, name: string): (r: seq<string>)
    requires Sorted(sorted)
    ensures Sorted(r) && multiset(r) == multiset(sorted) + multiset{name}
    ensures forall x :: x in r <==> x in sorted || x == name
  {
    if sorted == [] || !Less(sorted[0], name) then
      HeadIsLeast(name, sorted);
      [name] + sorted
    else
      var rest := InsertName(sorted[1..], name);
      assert sorted == [sorted[0]] + sorted[1..];
      LessIsTotal(sorted[0], name);
      assert forall x | x in rest :: !Less(x, sorted[0]);
      [sorted[0]] + rest
  }

  lemma HeadIsLeast(name: string, sorted: seq<string>)
    requires Sorted(sorted) && (sorted == [] || !Less(sorted[0], name))
    ensures Sorted([name] + sorted)
  {
    forall j | 0 <= j < |sorted| ensures !Less(sorted[j], name) {
      if Less(sorted[j], name) && j > 0 {
        LessIsTotal(sorted[0], name);
        LessIsTotal(sorted[0], sorted[j]);
        if sorted[0] != name && sorted[j] != sorted[0] {
          LessIsTransitive(sorted[j], name, sorted[0]);
        }
      }
    }
  }

  /** sort.Strings. */
  function SortNames(names: seq<string>): (r: seq<string>)
    ensures Sorted(r) && multiset(r) == multiset(names)
    ensures forall x :: x in r <==> x in names
  {
    if names == [] then []
    else
      assert names == names[..|names| - 1] + [names[|names| - 1]];
      InsertName(SortNames(names[..|names| - 1]), names[|names| - 1])
  }

  function NamesOf(entries: seq<Entry>): seq<string> {
    if entries == [] then []
    else
      var last := entries[|entries| - 1];
      NamesOf(entries[..|entries| - 1]) + if IsMigration(last) then [last.name] else []
  }

  /** The names still to be applied, in order. */
  function Pending(names: seq<string>, applied: set<string>): (r: seq<string>)
    ensures forall x :: x in r <==> x in names && x !in applied
  {
    if names == [] then []
    else
      var last := names[|names| - 1];
      assert names == names[..|names| - 1] + [last];
      Pending(names[..|names| - 1], applied) + if last in applied then [] else [last]
  }

  function Members(s: seq<string>): set<string> {
    set x | x in s
  }

  lemma {:induction false} PendingDistinct(names: seq<string>, applied: set<string>)
    requires Distinct(names)
    ensures Distinct(Pending(names, applied))
  {
    if names == [] {
    } else {
      PendingDistinct(names[..|names| - 1], applied);
    }
  }

  lemma PendingStep(names: seq<string>, i: nat, applied: set<string>)
    requires i < |names|
    ensures Pending(names[..i + 1], applied)
         == Pending(names[..i], applied) + if names[i] in applied then [] else [names[i]]
  {
    assert names[..i + 1][..i] == names[..i];
  }

  lemma {:induction false} PendingPrefix(names: seq<string>, i: nat, applied: set<string>)
    requires i <= |names|
    ensures Pending(names[..i], applied) <= Pending(names, applied)
  {
    if i < |names| {
      PendingPrefix(names[..|names| - 1], i, applied);
      assert names[..|names| - 1][..i] == names[..i];
    } else {
      assert names[..i] == names;
    }
  }

  class Database {
    var hasTable: bool
    var versions: seq<string>
    var bodies: seq<string>
    // the open transaction
    var inTx: bool
    var txVersions: seq<string>
    var txBodies: seq<string>

    ghost predicate Valid()
      reads this
    {
      && (!hasTable ==> versions == [])
      && versions == bodies
      && Distinct(versions)
    }

    constructor ()
      ensures Valid() && versions == [] && !inTx
    {
      hasTable, versions, bodies := false, [], [];
      inTx, txVersions, txBodies := false, [], [];
    }

    method Begin()
      requires !inTx
      modifies this`inTx, this`txVersions, this`txBodies
      ensures inTx && txVersions == [] && txBodies == []
    {
      inTx, txVersions, txBodies := true, [], [];
    }

    method ExecBody(name: string)
      requires inTx
      modifies this`txBodies
      ensures txBodies == old(txBodies) + [name]
    {
      txBodies := txBodies + [name];
    }

    /** The primary key of schema_migrations: a version can be inserted once. */
    method InsertVersion(name: string)
      requires inTx && hasTable && name !in versions && name !in txVersions
      modifies this`txVersions
      ensures txVersions == old(txVersions) + [name]
    {
      txVersions := txVersions + [name];
    }

    method Commit()
      requires inTx
      modifies this
      ensures !inTx && hasTable == old(hasTable)
      ensures versions == old(versions + txVersions) && bodies == old(bodies + txBodies)
    {
      versions, bodies := versions + txVersions, bodies + txBodies;
      inTx := false;
    }

    /** A rollback, or the end of the process: the open transaction leaves no trace. */
    method Abandon()
      modifies this`inTx
      ensures !inTx
    {
      inTx := false;
    }

    /**
     One migration file: its transaction of four statements, of which `left` still get to run.
     A statement that fails (`broken`) or is never reached leaves no trace of the file.
     */
    method ApplyFile(name: string, broken: bool, left: nat) returns (ok: bool)
      requires Valid() && !inTx && hasTable && name !in versions
      modifies this
      ensures Valid() && !inTx && hasTable
      ensures ok == (left >= 4 && !broken)
      ensures versions == if ok then old(versions) + [name] else old(versions)
    {
      if left < 1 {
        return false;
      }
      Begin();
      if left < 2 || broken {
        Abandon();
        return false;
      }
      ExecBody(name);
      if left < 3 {
        Abandon();
        return false;
      }
      InsertVersion(name);
      if left < 4 {
        Abandon();
        return false;
      }
      Commit();
      return true;
    }

    /** The rows of schema_migrations as a set. */
    method Applied() returns (applied: set<string>)
      ensures applied == Members(versions)
    {
      applied := {};
      for i := 0 to |versions|
        invariant applied == Members(versions[..i])
      {
        applied := applied + {versions[i]};
      }
      assert versions[..|versions|] == versions;
    }

    /**
     One start of the program, cut off after `budget` statements; `broken` are the files whose
     SQL fails. It commits the first `committed` files that are pending, and no others.
     */
    method Migrate(entries: seq<Entry>, broken: set<string>, budget: nat) returns (result: Result, committed: nat)
      requires Valid() && !inTx && Distinct(NamesOf(entries))
      modifies this
      ensures Valid() && !inTx
      ensures var todo := Pending(SortNames(NamesOf(entries)), Members(old(versions)));
              && committed <= |todo|
              && versions == old(versions) + todo[..committed]
              && (result == Done ==> committed == |todo|)
              && (result == Interrupted && broken == {} ==> budget < 2 + 4 * |todo|)
      ensures versions == AfterRun(old(versions), Run(NamesOf(entries), committed))
      ensures result == Done ==> forall stem | Entry(stem + ".sql", false) in entries :: stem + ".sql" in versions
      ensures forall v | v in versions && v !in old(versions) :: IsFileOf(entries, v)
    {
      hide Pending, SortNames, NamesOf, Less;
      ghost var start := versions;
      CommittedAreFiles(entries, start, 0);
      if budget == 0 {
        return Interrupted, 0;
      }
      hasTable := true;
      var names := ListMigrations(entries);
      names := SortNames(names);
      SortedDistinct(NamesOf(entries));
      if budget == 1 {
        return Interrupted, 0;
      }
      var applied := Applied();
      PendingDistinct(names, applied);
      ghost var before, todo := versions, Pending(names, applied);
      committed := 0;
      PendingPrefix(names, 0, applied);
      NothingPending([], applied);
      assert names[..0] == [];
      for i := 0 to |names|
        invariant committed <= |todo| && Pending(names[..i], applied) == todo[..committed]
        invariant versions == before + todo[..committed]
        invariant budget >= 2 + 4 * committed
        invariant Valid() && !inTx && hasTable
      {
        PendingStep(names, i, applied);
        PendingPrefix(names, i + 1, applied);
        if names[i] !in applied {
          NotYetApplied(before, names, i, applied);
          assert todo[..committed + 1] == todo[..committed] + [names[i]];
          var ok := ApplyFile(names[i], names[i] in broken, budget - 2 - 4 * committed);
          if !ok {
            CommittedAreFiles(entries, start, committed);
            return Interrupted, committed;
          }
          committed := committed + 1;
        }
      }
      assert names[..|names|] == names;
      CommittedAreFiles(entries, start, committed);
      return Done, committed;
    }
  }

  lemma {:induction false} NamesCount(entries: seq<Entry>, name: string)
    ensures multiset(NamesOf(entries))[name]
         == if |name| >= 4 && name[|name| - 4..] == ".sql" then multiset(entries)[Entry(name, false)] else 0
  {
    if entries == [] {
    } else {
      var init, last := entries[..|entries| - 1], entries[|entries| - 1];
      assert entries == init + [last];
      NamesCount(init, name);
      assert NamesOf(entries) == NamesOf(init) + if IsMigration(last) then [last.name] else [];
      if last.name == name && !last.isDir {
        assert last == Entry(name, false);
      }
    }
  }

  /** The names are those of the entries that are no directories and end in ".sql", each as often as it is listed. */
  lemma NamesExactly(entries: seq<Entry>, name: string)
    ensures multiset(NamesOf(entries))[name]
         == if exists stem :: name == stem + ".sql" then multiset(entries)[Entry(name, false)] else 0
  {
    SuffixIsStem(name);
    NamesCount(entries, name);
  }

  lemma SuffixIsStem(name: string)
    ensures (exists stem :: name == stem + ".sql") <==> |name| >= 4 && name[|name| - 4..] == ".sql"
  {
    if |name| >= 4 && name[|name| - 4..] == ".sql" {
      assert name == name[..|name| - 4] + ".sql";
    }
  }

  /** Every SQL file of a directory is among the names, and nothing else is. */
  lemma NamesMembers(entries: seq<Entry>)
    ensures forall stem | Entry(stem + ".sql", false) in entries :: stem + ".sql" in NamesOf(entries)
    ensures forall name | name in NamesOf(entries) :: IsFileOf(entries, name)
  {
    forall stem | Entry(stem + ".sql", false) in entries ensures stem + ".sql" in NamesOf(entries) {
      NamesExactly(entries, stem + ".sql");
      assert multiset(entries)[Entry(stem + ".sql", false)] > 0;
    }
    forall name | name in NamesOf(entries) ensures IsFileOf(entries, name) {
      NamesExactly(entries, name);
      assert multiset(NamesOf(entries))[name] > 0;
      assert multiset(entries)[Entry(name, false)] > 0;
    }
  }

  /** What a start commits are SQL files of the directory, and when it is done every one of them is applied. */
  lemma CommittedAreFiles(entries: seq<Entry>, before: seq<string>, committed: nat)
    requires committed <= |Pending(SortNames(NamesOf(entries)), Members(before))|
    ensures var todo := Pending(SortNames(NamesOf(entries)), Members(before));
            var after := before + todo[..committed];
            && (committed == |todo| ==> forall stem | Entry(stem + ".sql", false) in entries :: stem + ".sql" in after)
            && forall v | v in after && v !in before :: IsFileOf(entries, v)
  {
    hide SortNames, NamesOf;
    NamesMembers(entries);
    var todo := Pending(SortNames(NamesOf(entries)), Members(before));
    assert forall v | v in todo[..committed] :: v in todo;
    assert todo[..|todo|] == todo;
  }

  /** The directory listing, reduced to the names of its SQL files. */
  method ListMigrations(entries: seq<Entry>) returns (names: seq<string>)
    ensures names == NamesOf(entries)
    ensures forall name :: multiset(names)[name]
              == if exists stem :: name == stem + ".sql" then multiset(entries)[Entry(name, false)] else 0
  {
    names := [];
    for i := 0 to |entries|
      invariant names == NamesOf(entries[..i])
    {
      assert entries[..i + 1][..i] == entries[..i];
      if IsMigration(entries[i]) {
        names := names + [entries[i].name];
      }
    }
    assert entries[..|entries|] == entries;
    forall name ensures multiset(names)[name]
                     == if exists stem :: name == stem + ".sql" then multiset(entries)[Entry(name, false)] else 0
    {
      NamesExactly(entries, name);
    }
  }

  lemma SortedDistinct(names: seq<string>)
    requires Distinct(names)
    ensures Distinct(SortNames(names))
  {
    DistinctMeansOnce(names);
    OnceMeansDistinct(SortNames(names));
  }

  lemma {:induction false} DistinctMeansOnce(s: seq<string>)
    requires Distinct(s)
    ensures forall x :: multiset(s)[x] <= 1
  {
    if s == [] {
    } else {
      var init, last := s[..|s| - 1], s[|s| - 1];
      DistinctMeansOnce(init);
      assert s == init + [last];
      assert last !in init;
      assert multiset(init)[last] == 0;
    }
  }

  lemma OnceMeansDistinct(s: seq<string>)
    requires forall x :: multiset(s)[x] <= 1
    ensures Distinct(s)
  {
    forall i, j | 0 <= i < j < |s| ensures s[i] != s[j] {
      assert s == s[..i] + [s[i]] + s[i + 1..j] + [s[j]] + s[j + 1..];
      assert multiset(s) == multiset(s[..i]) + multiset{s[i]} + multiset(s[i + 1..j]) + multiset{s[j]}
                            + multiset(s[j + 1..]);
      assert s[i] == s[j] ==> multiset(s)[s[i]] >= 2;
    }
  }

  /** The next name is neither an old version nor one that this run has just applied. */
  lemma NotYetApplied(before: seq<string>, names: seq<string>, i: nat, applied: set<string>)
    requires i < |names| && Distinct(names) && applied == Members(before) && names[i] !in applied
    ensures names[i] !in before + Pending(names[..i], applied)
  {
  }

  // ---- any sequence of runs ----

  /** One start: the files it finds, and how many transactions it gets to commit. */
  datatype Run = Run(names: seq<string>, cut: nat)

  function AfterRun(versions: seq<string>, run: Run): seq<string> {
    var todo := Pending(SortNames(run.names), Members(versions));
    versions + if run.cut < |todo| then todo[..run.cut] else todo
  }

  function AfterRuns(runs: seq<Run>): seq<string> {
    if runs == [] then [] else AfterRun(AfterRuns(runs[..|runs| - 1]), runs[|runs| - 1])
  }

  predicate Completed(runs: seq<Run>)
    requires runs != []
  {
    var last := runs[|runs| - 1];
    last.cut >= |Pending(SortNames(last.names), Members(AfterRuns(runs[..|runs| - 1])))|
  }

  lemma AfterRunDistinct(versions: seq<string>, run: Run)
    requires Distinct(versions) && Distinct(run.names)
    ensures Distinct(AfterRun(versions, run))
    ensures forall x | x in AfterRun(versions, run) :: x in versions || x in run.names
  {
    SortedDistinct(run.names);
    var todo := Pending(SortNames(run.names), Members(versions));
    PendingDistinct(SortNames(run.names), Members(versions));
    forall j | 0 <= j < |todo| ensures todo[j] !in versions && todo[j] in run.names {
      assert todo[j] in todo;
    }
  }

  /** However the runs are cut and whatever files each one finds, no migration is committed twice. */
  lemma {:induction false} CommittedOnce(runs: seq<Run>)
    requires forall run | run in runs :: Distinct(run.names)
    ensures Distinct(AfterRuns(runs))
    ensures forall x | x in AfterRuns(runs) :: exists run | run in runs :: x in run.names
  {
    hide AfterRun;
    if runs == [] {
    } else {
      var before, run := runs[..|runs| - 1], runs[|runs| - 1];
      assert run in runs;
      assert forall r | r in before :: r in runs;
      CommittedOnce(before);
      AfterRunDistinct(AfterRuns(before), run);
    }
  }

  lemma {:induction false} NothingPending(names: seq<string>, applied: set<string>)
    requires forall x | x in names :: x in applied
    ensures Pending(names, applied) == []
  {
    if names == [] {
    } else {
      NothingPending(names[..|names| - 1], applied);
    }
  }

  lemma {:induction false} PendingAfterPrefix(names: seq<string>, k: nat)
    requires Distinct(names) && k <= |names|
    ensures Pending(names, Members(names[..k])) == names[k..]
  {
    if k == |names| {
      assert names[..k] == names;
      NothingPending(names, Members(names[..k]));
    } else {
      var init := names[..|names| - 1];
      assert init[..k] == names[..k];
      PendingAfterPrefix(init, k);
      assert names[k..] == init[k..] + [names[|names| - 1]];
    }
  }

  lemma ExtendsPrefix(sorted: seq<string>, done: seq<string>, run: Run)
    requires Distinct(sorted) && done <= sorted && SortNames(run.names) == sorted
    ensures done <= AfterRun(done, run) <= sorted
    ensures run.cut >= |Pending(sorted, Members(done))| ==> AfterRun(done, run) == sorted
  {
    hide Pending, SortNames, Distinct;
    assert done == sorted[..|done|];
    PendingAfterPrefix(sorted, |done|);
    assert sorted == done + sorted[|done|..];
  }

  /**
   With one set of files: after any runs the applied versions are a prefix of the sorted
   names; once a run completes they are all of them, and later runs change nothing.
   */
  lemma {:induction false} AlwaysAPrefix(names: seq<string>, runs: seq<Run>)
    requires Distinct(names) && forall run | run in runs :: run.names == names
    ensures AfterRuns(runs) <= SortNames(names)
    ensures (exists i | 0 < i <= |runs| :: Completed(runs[..i])) ==> AfterRuns(runs) == SortNames(names)
  {
    hide AfterRun, SortNames, Pending;
    if runs == [] {
    } else {
      var before, last := runs[..|runs| - 1], runs[|runs| - 1];
      assert forall r | r in before :: r in runs;
      assert last in runs;
      AlwaysAPrefix(names, before);
      SortedDistinct(names);
      ExtendsPrefix(SortNames(names), AfterRuns(before), last);
      if i :| 0 < i <= |runs| && Completed(runs[..i]) {
        if i < |runs| {
          assert runs[..i] == before[..i];
        } else {
          assert runs[..i] == runs;
        }
      }
    }
  }
}
