/** The migration runner: files are applied in order, each in a transaction that also
    records it in schema_version, over any number of runs that fail or crash midway. */
module Migrations {
  import opened Types

  datatype VersionStatus = Applied | Broken

  /** What survives a crash: the schema_version table, and the migrations whose
      transactions were committed, in commit order. */
  datatype Database = Database(version: map<string, VersionStatus>, effects: seq<string>)

  datatype Entry = Entry(name: string, isDir: bool)

  /** What happens to one file in one run. A crash, or an error from COMMIT, leaves open
      whether the transaction is durable. */
  datatype Fate =
    | Unreadable
    | NoTransaction
    | ScriptFails
    | RecordFails
    | CommitFails(durable: bool)
    | Crashes(durable: bool)
    | Applies

  datatype Problem =
    | Unprepared                 // creating or reading schema_version failed
    | PreviouslyFailed(count: nat)
    | NoDirectory
    | NoFiles
    | FileProblem(file: string, fate: Fate)

  /** One call: what befalls its first statements, which of the recorded names it does not
      get to read, because reading them broke off, and what befalls each file it comes to. */
  datatype Round = Round(prepared: bool, unread: set<string>, fates: string -> Fate)

  // -------------------------------------------------------------------------
  // Specification of one run
  // -------------------------------------------------------------------------

  predicate IsMigration(e: Entry) {
    !e.isDir && |e.name| >= 4 && e.name[|e.name| - 4..] == ".sql"
  }

  function Selected(entries: seq<Entry>): seq<string> {
    if entries == [] then []
    else Selected(entries[..|entries| - 1])
         + if IsMigration(entries[|entries| - 1]) then [entries[|entries| - 1].name] else []
  }

  /** The order of names, character by character. */
  predicate Leq(a: string, b: string) {
    a == [] || (b != [] && (a[0] < b[0] || (a[0] == b[0] && Leq(a[1..], b[1..]))))
  }

  function Insert(x: string, names: seq<string>): seq<string> {
    if names == [] then [x]
    else if Leq(x, names[0]) then [x] + names
    else [names[0]] + Insert(x, names[1..])
  }

  function Sort(names: seq<string>): seq<string> {
    if names == [] then [] else Insert(names[0], Sort(names[1..]))
  }

  function Files(entries: seq<Entry>): seq<string> {
    Sort(Selected(entries))
  }

  function WithStatus(db: Database, s: VersionStatus): set<string> {
    set fn | fn in db.version && db.version[fn] == s
  }

  function Commit(db: Database, fn: string): Database {
    Database(db.version[fn := Applied], db.effects + [fn])
  }

  function Attempt(db: Database, fn: string, fate: Fate): Database {
    match fate
    case Applies => Commit(db, fn)
    case CommitFails(durable) => if durable then Commit(db, fn) else db
    case Crashes(durable) => if durable then Commit(db, fn) else db
    case _ => db
  }

  function ApplyAll(db: Database, todo: seq<string>, fates: string -> Fate): (Database, Option<Problem>)
    decreases |todo|
  {
    if todo == [] then (db, None)
    else
      var db' := Attempt(db, todo[0], fates(todo[0]));
      if fates(todo[0]).Applies? then ApplyAll(db', todo[1..], fates)
      else (db', Some(FileProblem(todo[0], fates(todo[0]))))
  }

  /** The files that are not recorded as applied, in their order. */
  function Without(files: seq<string>, applied: set<string>): seq<string> {
    if files == [] then []
    else if files[0] in applied then Without(files[1..], applied)
    else [files[0]] + Without(files[1..], applied)
  }

  function Todo(db: Database, files: seq<string>, round: Round): seq<string> {
    Without(files, WithStatus(db, Applied) - round.unread)
  }

  function RunOnce(db: Database, dir: Option<seq<Entry>>, round: Round): (Database, Option<Problem>) {
    if !round.prepared then (db, Some(Unprepared))
    else if WithStatus(db, Broken) != {} then (db, Some(PreviouslyFailed(|WithStatus(db, Broken)|)))
    else if dir.None? then (db, Some(NoDirectory))
    else if Files(dir.value) == [] then (db, Some(NoFiles))
    else ApplyAll(db, Todo(db, Files(dir.value), round), round.fates)
  }

  // -------------------------------------------------------------------------
  // The code
  // -------------------------------------------------------------------------

  class Migrator {
    var db: Database

    constructor (db: Database)
      ensures this.db == db
    {
      this.db := db;
    }

    /** Nobody asks whether the iteration ended because all rows were read. */
    method ListApplied(unread: set<string>) returns (applied: map<string, bool>)
      ensures applied.Keys == WithStatus(db, Applied) - unread
    {
      applied := map[];
      var rows := set fn | fn in db.version && db.version[fn].Applied? && fn !in unread;
      while rows != {}
        invariant applied.Keys + rows == WithStatus(db, Applied) - unread
        decreases |rows|
      {
        var fn :| fn in rows;
        rows := rows - {fn};
        applied := applied[fn := true];
      }
    }

    /** The directory may list its entries in any order. */
    method ListFiles(entries: seq<Entry>) returns (files: seq<string>)
      ensures files == Files(entries)
    {
      files := [];
      for i := 0 to |entries|
        invariant files == Selected(entries[..i])
      {
        assert entries[..i + 1][..i] == entries[..i];
        if !entries[i].isDir && |entries[i].name| >= 4 && entries[i].name[|entries[i].name| - 4..] == ".sql" {
          files := files + [entries[i].name];
        }
      }
      assert entries[..|entries|] == entries;
      files := Sort(files);
    }

    /** One file inside its transaction; `tx` is what the transaction would make durable. */
    method ApplyFile(fn: string, fate: Fate) returns (problem: Option<Problem>)
      modifies this
      ensures db == Attempt(old(db), fn, fate)
      ensures fate.Applies? || ((fate.CommitFails? || fate.Crashes?) && fate.durable) ==>
                db == Database(old(db).version[fn := Applied], old(db).effects + [fn])
      ensures !(fate.Applies? || ((fate.CommitFails? || fate.Crashes?) && fate.durable)) ==> db == old(db)
      ensures problem == if fate.Applies? then None else Some(FileProblem(fn, fate))
    {
      if fate.Unreadable? || fate.NoTransaction? {
        return Some(FileProblem(fn, fate));
      }
      var tx := db;
      if fate.ScriptFails? {
        // the failure is recorded in the transaction that is then rolled back
        tx := tx.(version := tx.version[fn := Broken]);
        return Some(FileProblem(fn, fate));
      }
      tx := tx.(effects := tx.effects + [fn]);
      if fate.RecordFails? {
        return Some(FileProblem(fn, fate));
      }
      tx := tx.(version := tx.version[fn := Applied]);
      if fate.Applies? {
        db := tx;
        return None;
      }
      if fate.durable {
        db := tx;
      }
      return Some(FileProblem(fn, fate));
    }

    method RunMigrations(dir: Option<seq<Entry>>, round: Round) returns (problem: Option<Problem>)
      modifies this
      ensures (db, problem) == RunOnce(old(db), dir, round)
      ensures !round.prepared ==> problem == Some(Unprepared) && db == old(db)
      ensures var failed := WithStatus(old(db), Broken);
              && (round.prepared && failed != {} ==> problem == Some(PreviouslyFailed(|failed|)))
              && (round.prepared && failed == {} && dir.None? ==> problem == Some(NoDirectory) && db == old(db))
              && (round.prepared && failed == {} && dir.Some? ==>
                    && (Files(dir.value) == [] <==> problem == Some(NoFiles))
                    && (problem.Some? && Files(dir.value) != [] ==>
                          && problem.value.FileProblem? && problem.value.file in Files(dir.value)
                          && problem.value.fate == round.fates(problem.value.file) && !problem.value.fate.Applies?))
    {
      if !round.prepared {
        return Some(Unprepared);
      }
      var failed := set fn | fn in db.version && db.version[fn].Broken?;
      assert failed == WithStatus(db, Broken);
      if |failed| > 0 {
        return Some(PreviouslyFailed(|failed|));
      }
      var applied := ListApplied(round.unread);
      if dir.None? {
        return Some(NoDirectory);
      }
      var files := ListFiles(dir.value);
      if |files| == 0 {
        return Some(NoFiles);
      }
      for i := 0 to |files|
        invariant RunOnce(old(db), dir, round) == ApplyAll(db, Without(files[i..], applied.Keys), round.fates)
      {
        assert files[i..][0] == files[i] && files[i..][1..] == files[i + 1..];
        if files[i] in applied {
          continue;
        }
        assert Without(files[i..], applied.Keys)[1..] == Without(files[i + 1..], applied.Keys);
        problem := ApplyFile(files[i], round.fates(files[i]));
        if problem.Some? {
          return;
        }
      }
      return None;
    }
  }

  // -------------------------------------------------------------------------
  // The list of files
  // -------------------------------------------------------------------------

  lemma {:induction false} LeqTotal(a: string, b: string)
    ensures Leq(a, b) || Leq(b, a)
  {
    if a != [] && b != [] { LeqTotal(a[1..], b[1..]); }
  }

  lemma {:induction false} LeqTransitive(a: string, b: string, c: string)
    requires Leq(a, b) && Leq(b, c)
    ensures Leq(a, c)
  {
    if a != [] && a[0] == b[0] == c[0] { LeqTransitive(a[1..], b[1..], c[1..]); }
  }

  ghost predicate Ascending(names: seq<string>) {
    forall i, j :: 0 <= i < j < |names| ==> Leq(names[i], names[j])
  }

  lemma {:induction false} InsertSame(x: string, names: seq<string>)
    ensures multiset(Insert(x, names)) == multiset(names) + multiset{x}
    ensures forall y :: y in Insert(x, names) <==> y == x || y in names
  {
    if names != [] && !Leq(x, names[0]) {
      InsertSame(x, names[1..]);
      assert names == [names[0]] + names[1..];
    }
  }

  lemma FirstAscends(first: string, rest: seq<string>)
    requires Ascending(rest) && forall y <- rest :: Leq(first, y)
    ensures Ascending([first] + rest)
  {
    assert forall j :: 0 <= j < |rest| ==> rest[j] in rest;
  }

  lemma {:induction false} InsertAscends(x: string, names: seq<string>)
    requires Ascending(names)
    ensures Ascending(Insert(x, names))
  {
    if names == [] {
    } else if Leq(x, names[0]) {
      forall y <- names
        ensures Leq(x, y)
      {
        if y != names[0] { LeqTransitive(x, names[0], y); }
      }
      FirstAscends(x, names);
    } else {
      InsertAscends(x, names[1..]);
      InsertSame(x, names[1..]);
      LeqTotal(x, names[0]);
      FirstAscends(names[0], Insert(x, names[1..]));
    }
  }

  lemma {:induction false} SortAscends(names: seq<string>)
    ensures Ascending(Sort(names)) && multiset(Sort(names)) == multiset(names)
  {
    if names != [] {
      SortAscends(names[1..]);
      InsertAscends(names[0], Sort(names[1..]));
      InsertSame(names[0], Sort(names[1..]));
      assert names == [names[0]] + names[1..];
    }
  }

  lemma {:induction false} SelectedExactly(entries: seq<Entry>, name: string)
    ensures name in Selected(entries) <==> exists e <- entries :: IsMigration(e) && e.name == name
  {
    if entries != [] {
      var rest, last := entries[..|entries| - 1], entries[|entries| - 1];
      SelectedExactly(rest, name);
      assert entries == rest + [last];
    }
  }

  /** `x` does not come after `y`: it is a beginning of `y`, or smaller at the first
      character where they differ. */
  ghost predicate NotAfter(x: string, y: string) {
    x <= y || exists k :: 0 <= k < |x| && k < |y| && x[..k] == y[..k] && x[k] < y[k]
  }

  lemma {:induction false} LeqIsNotAfter(a: string, b: string)
    requires Leq(a, b)
    ensures NotAfter(a, b)
  {
    if a != [] && a[0] == b[0] {
      LeqIsNotAfter(a[1..], b[1..]);
      assert a == [a[0]] + a[1..] && b == [b[0]] + b[1..];
      if !(a <= b) {
        var k :| 0 <= k < |a[1..]| && k < |b[1..]| && a[1..][..k] == b[1..][..k] && a[1..][k] < b[1..][k];
        assert a[..k + 1] == [a[0]] + a[1..][..k] && b[..k + 1] == [b[0]] + b[1..][..k];
        assert a[k + 1] < b[k + 1];
      }
    } else if a != [] {
      assert a[..0] == b[..0];
    }
  }

  ghost predicate DistinctEntries(entries: seq<Entry>) {
    forall i, j :: 0 <= i < j < |entries| ==> entries[i].name != entries[j].name
  }

  lemma {:induction false} SelectedOnce(entries: seq<Entry>, name: string)
    requires DistinctEntries(entries)
    ensures multiset(Selected(entries))[name] <= 1
  {
    if entries != [] {
      var rest, last := entries[..|entries| - 1], entries[|entries| - 1];
      SelectedOnce(rest, name);
      SelectedExactly(rest, name);
      if name in Selected(rest) {
        assert name in multiset(Selected(rest));
        assert name != last.name;
      }
    }
  }

  lemma OnceIsDistinct(names: seq<string>)
    requires forall name :: multiset(names)[name] <= 1
    ensures forall i, j :: 0 <= i < j < |names| ==> names[i] != names[j]
  {
    forall i, j | 0 <= i < j < |names|
      ensures names[i] != names[j]
    {
      assert multiset(names)[names[i]] <= 1;
      assert names == names[..j] + names[j..];
      assert multiset(names) == multiset(names[..j]) + multiset(names[j..]);
      assert names[..j][i] == names[i] && names[i] in multiset(names[..j]);
      assert names[j..][0] == names[j] && names[j] in multiset(names[j..]);
    }
  }

  /** In whatever order the directory is read: the files are its .sql files, in the order of
      their names, each once. */
  lemma FilesInOrder(entries: seq<Entry>, name: string)
    ensures forall i, j :: 0 <= i < j < |Files(entries)| ==> NotAfter(Files(entries)[i], Files(entries)[j])
    ensures name in Files(entries) <==>
            exists e <- entries :: !e.isDir && e.name == name && |name| >= 4 && name[|name| - 4..] == ".sql"
    ensures DistinctEntries(entries) ==> DistinctNames(Files(entries))
  {
    SortAscends(Selected(entries));
    SelectedExactly(entries, name);
    assert name in Files(entries) <==> name in multiset(Files(entries));
    forall i, j | 0 <= i < j < |Files(entries)|
      ensures NotAfter(Files(entries)[i], Files(entries)[j])
    {
      LeqIsNotAfter(Files(entries)[i], Files(entries)[j]);
    }
    if DistinctEntries(entries) {
      forall n: string
        ensures multiset(Files(entries))[n] <= 1
      {
        SelectedOnce(entries, n);
      }
      OnceIsDistinct(Files(entries));
    }
  }

  // -------------------------------------------------------------------------
  // What one run does to a database
  // -------------------------------------------------------------------------

  /** A file system holds one file per name. */
  ghost predicate DistinctNames(files: seq<string>) {
    forall i, j :: 0 <= i < j < |files| ==> files[i] != files[j]
  }

  /** The table records exactly the committed migrations as applied. */
  ghost predicate Recorded(db: Database) {
    forall fn :: fn in WithStatus(db, Applied) <==> fn in db.effects
  }

  ghost predicate AllApply(todo: seq<string>, fates: string -> Fate) {
    forall fn <- todo :: fates(fn).Applies?
  }

  /** Some number of the pending migrations is committed, in order; without a problem, all. */
  lemma {:induction false} AppliesInOrder(db: Database, todo: seq<string>, fates: string -> Fate) returns (n: nat)
    requires Recorded(db) && WithStatus(db, Broken) == {}
    ensures var (db', problem) := ApplyAll(db, todo, fates);
            && n <= |todo| && db'.effects == db.effects + todo[..n]
            && Recorded(db') && WithStatus(db', Broken) == {}
            && (problem.None? ==> n == |todo|)
            && (problem.None? <==> AllApply(todo, fates))
    decreases |todo|
  {
    n := 0;
    if todo != [] {
      var db' := Attempt(db, todo[0], fates(todo[0]));
      CommitRecords(db, todo[0]);
      if fates(todo[0]).Applies? {
        var k := AppliesInOrder(db', todo[1..], fates);
        n := k + 1;
        assert todo[..n] == [todo[0]] + todo[1..][..k];
        assert forall fn :: fn in todo <==> fn == todo[0] || fn in todo[1..];
      } else if db' != db {
        n := 1;
        assert todo[..1] == [todo[0]];
      }
    }
  }

  lemma CommitRecords(db: Database, fn: string)
    requires Recorded(db) && WithStatus(db, Broken) == {}
    ensures Recorded(Commit(db, fn)) && WithStatus(Commit(db, fn), Broken) == {}
  {
    var db' := Commit(db, fn);
    forall g
      ensures g in WithStatus(db', Applied) <==> g in db'.effects
    {
      assert g in WithStatus(db, Applied) <==> g in db.effects;
    }
    forall g | g in db'.version
      ensures !db'.version[g].Broken?
    {
      assert g !in WithStatus(db, Broken);
    }
  }

  /** No run ever makes a `failed` row durable, and while one is there (put there by hand)
      every run is refused and changes nothing. */
  lemma FailedRowsBlock(db: Database, dir: Option<seq<Entry>>, round: Round)
    requires Recorded(db)
    ensures WithStatus(RunOnce(db, dir, round).0, Broken) == WithStatus(db, Broken)
    ensures WithStatus(db, Broken) != {} ==> RunOnce(db, dir, round).0 == db && RunOnce(db, dir, round).1.Some?
    ensures WithStatus(db, Broken) != {} && round.prepared ==>
              RunOnce(db, dir, round).1 == Some(PreviouslyFailed(|WithStatus(db, Broken)|))
  {
    if round.prepared && WithStatus(db, Broken) == {} && dir.Some? && Files(dir.value) != [] {
      var n := AppliesInOrder(db, Todo(db, Files(dir.value), round), round.fates);
    }
  }

  lemma {:induction false} NoneSeen(files: seq<string>, seen: set<string>)
    requires forall fn <- files :: fn !in seen
    ensures Without(files, seen) == files
  {
    if files != [] {
      assert files == [files[0]] + files[1..];
      NoneSeen(files[1..], seen);
    }
  }

  /** If only names among the first `m` are seen, then what is left begins with one of them,
      or is exactly the rest of the list. */
  lemma {:induction false} FirstUnseen(files: seq<string>, seen: set<string>, m: nat)
    requires DistinctNames(files) && m <= |files| && forall i :: 0 <= i < |files| && files[i] in seen ==> i < m
    ensures var todo := Without(files, seen);
            todo == [] || todo[0] !in files[..m] ==> todo == files[m..]
    decreases |files|
  {
    if m == 0 {
      NoneSeen(files, seen);
    } else if files[0] in seen {
      FirstUnseen(files[1..], seen, m - 1);
      assert files[..m] == [files[0]] + files[1..][..m - 1];
      var todo := Without(files[1..], seen);
      if todo != [] { assert todo[0] in files[..m] <==> todo[0] == files[0] || todo[0] in files[1..][..m - 1]; }
      if todo != [] && todo[0] == files[0] { WithoutSeen(files[1..], seen, files[0]); }
    } else {
      assert files[0] in files[..m];
    }
  }

  lemma {:induction false} WithoutSeen(files: seq<string>, seen: set<string>, fn: string)
    ensures fn in Without(files, seen) ==> fn !in seen
  {
    if files != [] { WithoutSeen(files[1..], seen, fn); }
  }

  /** The migrations committed so far are the first ones of the list. */
  ghost predicate InOrder(db: Database, files: seq<string>) {
    Recorded(db) && WithStatus(db, Broken) == {} && db.effects <= files
  }

  predicate Durable(fate: Fate) {
    fate.Applies? || ((fate.CommitFails? || fate.Crashes?) && fate.durable)
  }

  /** The run comes to an applied file whose name it did not get to read, and its
      transaction becomes durable once more. */
  ghost predicate Repeats(db: Database, files: seq<string>, round: Round) {
    var todo := Todo(db, files, round);
    round.prepared && todo != [] && todo[0] in db.effects && Durable(round.fates(todo[0]))
  }

  /** A run that read all of the table comes to exactly the rest of the list; any other
      begins with a file that is applied already. */
  lemma TodoFromPrefix(db: Database, files: seq<string>, round: Round)
    requires DistinctNames(files) && InOrder(db, files)
    ensures var todo := Todo(db, files, round);
            todo == [] || todo[0] !in db.effects ==> todo == files[|db.effects|..]
  {
    var m := |db.effects|;
    assert db.effects == files[..m];
    forall i | 0 <= i < |files| && files[i] in WithStatus(db, Applied) - round.unread
      ensures i < m
    {
      assert files[i] in files[..m];
    }
    FirstUnseen(files, WithStatus(db, Applied) - round.unread, m);
  }

  lemma ApplyingExtends(db: Database, files: seq<string>, fates: string -> Fate)
    requires InOrder(db, files)
    ensures var todo := files[|db.effects|..];
            var (db', problem) := ApplyAll(db, todo, fates);
            && InOrder(db', files) && db.effects <= db'.effects
            && (problem.None? ==> db'.effects == files)
            && (problem.None? <==> AllApply(todo, fates))
  {
    var n := AppliesInOrder(db, files[|db.effects|..], fates);
    PrefixGrows(db.effects, files, n);
  }

  lemma PrefixGrows(done: seq<string>, files: seq<string>, n: nat)
    requires done <= files && n <= |files| - |done|
    ensures done <= done + files[|done|..][..n] <= files
    ensures n == |files| - |done| ==> done + files[|done|..][..n] == files
  {
    assert files == done + files[|done|..];
    assert done + files[|done|..][..n] == files[..|done| + n];
  }

  lemma {:induction false} EffectsStay(db: Database, todo: seq<string>, fates: string -> Fate)
    ensures db.effects <= ApplyAll(db, todo, fates).0.effects
    decreases |todo|
  {
    if todo != [] { EffectsStay(Attempt(db, todo[0], fates(todo[0])), todo[1..], fates); }
  }

  /** No migration is committed a second time without leaving the list. */
  lemma TwiceIsNotInOrder(db: Database, db': Database, fn: string)
    requires fn in db.effects && db.effects + [fn] <= db'.effects
    ensures !DistinctNames(db'.effects)
  {
    var i :| 0 <= i < |db.effects| && db.effects[i] == fn;
    assert db'.effects[i] == (db.effects + [fn])[i] && db'.effects[|db.effects|] == (db.effects + [fn])[|db.effects|];
  }

  lemma RepeatsTwice(db: Database, entries: seq<Entry>, round: Round)
    requires InOrder(db, Files(entries)) && Repeats(db, Files(entries), round)
    ensures !DistinctNames(RunOnce(db, Some(entries), round).0.effects)
  {
    var todo := Todo(db, Files(entries), round);
    var db1 := Attempt(db, todo[0], round.fates(todo[0]));
    EffectsStay(db1, todo[1..], round.fates);
    TwiceIsNotInOrder(db, RunOnce(db, Some(entries), round).0, todo[0]);
  }

  /** One run extends the prefix that is applied, unless it commits a file again whose name
      it did not get to read; and if it does not, it reports success exactly when nothing
      that it came to goes wrong, and then everything is applied. */
  lemma RunExtendsPrefix(db: Database, entries: seq<Entry>, round: Round)
    requires DistinctNames(Files(entries)) && InOrder(db, Files(entries))
    ensures var files := Files(entries);
            var (db', problem) := RunOnce(db, Some(entries), round);
            && (InOrder(db', files) <==> !Repeats(db, files, round))
            && db.effects <= db'.effects
            && (!Repeats(db, files, round) ==>
                  && (problem.None? ==> db'.effects == files && files != [])
                  && (problem.None? <==>
                        round.prepared && files != [] && AllApply(Todo(db, files, round), round.fates)))
  {
    var files := Files(entries);
    var todo := Todo(db, files, round);
    EffectsStay(db, todo, round.fates);
    if Repeats(db, files, round) {
      RepeatsTwice(db, entries, round);
    } else if todo != [] && todo[0] in db.effects {
      assert todo[0] in todo;
    } else {
      TodoFromPrefix(db, files, round);
      ApplyingExtends(db, files, round.fates);
    }
  }

  // -------------------------------------------------------------------------
  // Any number of runs
  // -------------------------------------------------------------------------

  function RunAll(db: Database, dir: Option<seq<Entry>>, rounds: seq<Round>): Database
    decreases |rounds|
  {
    if rounds == [] then db else RunAll(RunOnce(db, dir, rounds[0]).0, dir, rounds[1..])
  }

  ghost predicate NeverRepeats(db: Database, entries: seq<Entry>, rounds: seq<Round>)
    decreases |rounds|
  {
    rounds == []
    || (!Repeats(db, Files(entries), rounds[0])
        && NeverRepeats(RunOnce(db, Some(entries), rounds[0]).0, entries, rounds[1..]))
  }

  lemma {:induction false} EffectsStayAll(db: Database, entries: seq<Entry>, rounds: seq<Round>)
    ensures db.effects <= RunAll(db, Some(entries), rounds).effects
    decreases |rounds|
  {
    if rounds != [] {
      EffectsStay(db, Todo(db, Files(entries), rounds[0]), rounds[0].fates);
      EffectsStayAll(RunOnce(db, Some(entries), rounds[0]).0, entries, rounds[1..]);
    }
  }

  /** Whatever fails or crashes, and however often the runner is started again over the same
      directory: no migration is committed twice, the committed ones are a prefix of the
      files in order, and exactly they are recorded, if and only if no run in between comes
      to an applied file whose name it did not get to read and commits it again. */
  lemma {:induction false} ExactlyOnce(db: Database, entries: seq<Entry>, rounds: seq<Round>)
    requires DistinctNames(Files(entries)) && InOrder(db, Files(entries))
    ensures var r := RunAll(db, Some(entries), rounds);
            && (InOrder(r, Files(entries)) <==> NeverRepeats(db, entries, rounds))
            && (DistinctNames(r.effects) <==> NeverRepeats(db, entries, rounds))
            && db.effects <= r.effects
    decreases |rounds|
  {
    EffectsStayAll(db, entries, rounds);
    if rounds != [] {
      var db1 := RunOnce(db, Some(entries), rounds[0]).0;
      RunExtendsPrefix(db, entries, rounds[0]);
      if Repeats(db, Files(entries), rounds[0]) {
        RepeatsTwice(db, entries, rounds[0]);
        EffectsStayAll(db1, entries, rounds[1..]);
      } else {
        ExactlyOnce(db1, entries, rounds[1..]);
      }
    }
  }

  /** With the table read to its end nothing is repeated. */
  lemma {:induction false} WholeReadsNeverRepeat(db: Database, entries: seq<Entry>, rounds: seq<Round>)
    requires DistinctNames(Files(entries)) && InOrder(db, Files(entries))
    requires forall round <- rounds :: round.unread == {}
    ensures NeverRepeats(db, entries, rounds)
    decreases |rounds|
  {
    if rounds != [] {
      assert rounds[0] in rounds && forall round <- rounds[1..] :: round in rounds;
      var todo := Todo(db, Files(entries), rounds[0]);
      if todo != [] {
        assert todo[0] in todo;
        WithoutSeen(Files(entries), WithStatus(db, Applied) - rounds[0].unread, todo[0]);
        assert todo[0] in WithStatus(db, Applied) <==> todo[0] in db.effects;
      }
      RunExtendsPrefix(db, entries, rounds[0]);
      WholeReadsNeverRepeat(RunOnce(db, Some(entries), rounds[0]).0, entries, rounds[1..]);
    }
  }

  /** Without the hypothesis on the start, for instance when a file sorting before applied
      ones is added later: what a successful run leaves behind is the list of files in order
      if and only if it started from a prefix of that list and repeated nothing. */
  lemma PrefixNeeded(db: Database, entries: seq<Entry>, round: Round)
    requires DistinctNames(Files(entries)) && Recorded(db) && RunOnce(db, Some(entries), round).1.None?
    ensures RunOnce(db, Some(entries), round).0.effects == Files(entries)
            <==> db.effects <= Files(entries) && !Repeats(db, Files(entries), round)
  {
    var files := Files(entries);
    var todo := Todo(db, files, round);
    var n := AppliesInOrder(db, todo, round.fates);
    assert todo[..n] == todo;
    if db.effects <= files { RunExtendsPrefix(db, entries, round); }
  }

  /** Such a late file is applied out of order. */
  lemma LateFile(first: string, second: string, round: Round)
    requires first != second && Leq(first, second)
    requires IsMigration(Entry(first, false)) && IsMigration(Entry(second, false))
    requires round.prepared && second !in round.unread && round.fates(first).Applies?
    ensures var db := Commit(Database(map[], []), second);
            RunOnce(db, Some([Entry(first, false), Entry(second, false)]), round).0.effects == [second, first]
  {
    var entries := [Entry(first, false), Entry(second, false)];
    var db := Commit(Database(map[], []), second);
    assert entries[..1] == [Entry(first, false)] && entries[..1][..0] == [];
    assert Selected(entries[..1]) == [first];
    assert Selected(entries) == [first, second];
    assert [first, second][1..] == [second] && [second][1..] == [];
    assert Sort([second]) == [second];
    assert Files(entries) == [first, second];
    assert Without([second], {second}) == [];
    assert WithStatus(db, Applied) == {second};
    assert WithStatus(db, Applied) - round.unread == {second};
    assert Without([first, second], {second}) == [first];
    assert ApplyAll(Commit(db, first), [first][1..], round.fates).0 == Commit(db, first);
  }

  lemma OneFile(fn: string)
    requires IsMigration(Entry(fn, false))
    ensures Files([Entry(fn, false)]) == [fn]
  {
    assert [Entry(fn, false)][..0] == [] && [fn][1..] == [];
    assert Selected([Entry(fn, false)]) == [fn];
    assert Sort([fn]) == [fn];
  }

  /** A file whose name was not read back is applied again. */
  lemma AppliedTwice(fn: string, round: Round)
    requires IsMigration(Entry(fn, false))
    requires round.prepared && fn in round.unread && round.fates(fn).Applies?
    ensures RunOnce(Commit(Database(map[], []), fn), Some([Entry(fn, false)]), round).0.effects == [fn, fn]
  {
    var db := Commit(Database(map[], []), fn);
    OneFile(fn);
    NoneSeen([fn], WithStatus(db, Applied) - round.unread);
    assert WithStatus(db, Broken) == {};
    assert [fn][1..] == [];
    assert ApplyAll(Commit(db, fn), [fn][1..], round.fates).0 == Commit(db, fn);
  }
}
