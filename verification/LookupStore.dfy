/** The two tables behind the protocol. Rows are addressed by generated ids, as the SQL
    statements address them; the ghost view `db`, keyed by case and source, is what the
    protocol machine works on, and `Valid` says that the tables represent it. */
module LookupStore {
  import opened Types
  import C = LookupCase

  /** A row of lookup_runs, minus its id. */
  datatype RunRow = RunRow(caseId: CaseId, status: RunStatus, completed: bool)

  /** A row of lookup_sources, minus its id. */
  datatype SourceRow = SourceRow(runId: nat, source: Source, row: Row)

  /** What the SELECT statements return. */
  datatype LookupRun = LookupRun(id: nat, status: RunStatus, completed: bool)
  datatype LookupSource = LookupSource(id: nat, source: Source, row: Row)

  /** Resetting a list of sources, one after the other. */
  function ResetRows(r: Run, todo: seq<Source>): Run {
    if todo == [] then r
    else
      var before := ResetRows(r, todo[..|todo| - 1]);
      var s := todo[|todo| - 1];
      C.SetRow(before, s, C.Reset(before.rows.At(s)))
  }

  /** Exactly the listed rows are reset, however the list is ordered. */
  lemma {:induction false} ResetRowsAt(r: Run, todo: seq<Source>, s: Source)
    ensures ResetRows(r, todo).rows.At(s) == if s in todo then C.Reset(r.rows.At(s)) else r.rows.At(s)
    ensures ResetRows(r, todo).status == r.status && ResetRows(r, todo).id == r.id
    ensures ResetRows(r, todo).completed == r.completed
  {
    if todo != [] {
      ResetRowsAt(r, todo[..|todo| - 1], s);
    }
  }

  lemma ResetOneMore(r: Run, todo: seq<Source>, i: nat)
    requires i < |todo|
    ensures var before := ResetRows(r, todo[..i]);
            ResetRows(r, todo[..i + 1]) == C.SetRow(before, todo[i], C.Reset(before.rows.At(todo[i])))
  {
    assert todo[..i + 1][..i] == todo[..i];
  }

  /** The order in which a creating transaction inserts its rows. */
  const SOURCE_NAMES: seq<Source> := [Property, Court, Scra]

  /** The source rows a creating transaction has inserted after `n` rounds of its loop. */
  function InsertRows(m: map<nat, SourceRow>, runId: nat, first: nat, n: nat): map<nat, SourceRow>
    requires n <= |SOURCE_NAMES|
  {
    if n == 0 then m
    else InsertRows(m, runId, first, n - 1)[first + n - 1 := SourceRow(runId, SOURCE_NAMES[n - 1], FRESH_ROW)]
  }

  lemma InsertThreeRows(m: map<nat, SourceRow>, runId: nat, first: nat)
    ensures InsertRows(m, runId, first, 3)
            == m[first := SourceRow(runId, Property, FRESH_ROW)]
                [first + 1 := SourceRow(runId, Court, FRESH_ROW)]
                [first + 2 := SourceRow(runId, Scra, FRESH_ROW)]
  {
    assert InsertRows(m, runId, first, 1) == m[first := SourceRow(runId, Property, FRESH_ROW)];
    assert InsertRows(m, runId, first, 2)
           == InsertRows(m, runId, first, 1)[first + 1 := SourceRow(runId, Court, FRESH_ROW)];
  }

  // -------------------------------------------------------------------------
  // Tables and the view they represent
  // -------------------------------------------------------------------------

  /** UNIQUE(case_id): a case's run row is the one the view knows. */
  ghost predicate RunsAgree(runs: map<nat, RunRow>, nextId: nat, db: map<CaseId, Run>) {
    && (forall r <- runs ::
          && r < nextId && runs[r].caseId in db && db[runs[r].caseId].id == r
          && db[runs[r].caseId].status == runs[r].status && db[runs[r].caseId].completed == runs[r].completed)
    && (forall c <- db :: db[c].id in runs && runs[db[c].id].caseId == c)
  }

  ghost predicate RowIs(sources: map<nat, SourceRow>, r: Run, s: Source, k: nat) {
    k in sources && sources[k] == SourceRow(r.id, s, r.rows.At(s))
  }

  /** UNIQUE(run_id, source), and three rows per run. */
  ghost predicate SourcesAgree(runs: map<nat, RunRow>, sources: map<nat, SourceRow>, nextId: nat,
                               db: map<CaseId, Run>, rowIds: map<CaseId, PerSource<nat>>) {
    && rowIds.Keys == db.Keys
    && (forall c, s: Source | c in db :: RowIs(sources, db[c], s, rowIds[c].At(s)))
    && (forall k <- sources ::
          && k < nextId && sources[k].runId in runs && runs[sources[k].runId].caseId in db
          && rowIds[runs[sources[k].runId].caseId].At(sources[k].source) == k)
  }

  lemma CommitAgrees(runs: map<nat, RunRow>, sources: map<nat, SourceRow>, nextId: nat,
                     db: map<CaseId, Run>, rowIds: map<CaseId, PerSource<nat>>, c: CaseId)
    requires RunsAgree(runs, nextId, db) && SourcesAgree(runs, sources, nextId, db, rowIds) && c !in db
    ensures var runs' := runs[nextId := RunRow(c, Pending, false)];
            var db' := db[c := C.FreshRun(nextId)];
            && RunsAgree(runs', nextId + 4, db')
            && SourcesAgree(runs', InsertRows(sources, nextId, nextId + 1, 3), nextId + 4, db',
                            rowIds[c := PerSource(nextId + 2, nextId + 1, nextId + 3)])
  {
    InsertThreeRows(sources, nextId, nextId + 1);
    var sources' := InsertRows(sources, nextId, nextId + 1, 3);
    var db' := db[c := C.FreshRun(nextId)];
    var rowIds' := rowIds[c := PerSource(nextId + 2, nextId + 1, nextId + 3)];
    forall c', s: Source | c' in db'
      ensures RowIs(sources', db'[c'], s, rowIds'[c'].At(s))
    {
      if c' != c { assert RowIs(sources, db[c'], s, rowIds[c'].At(s)); }
    }
  }

  lemma StatusAgrees(runs: map<nat, RunRow>, sources: map<nat, SourceRow>, nextId: nat,
                     db: map<CaseId, Run>, rowIds: map<CaseId, PerSource<nat>>,
                     r: nat, status: RunStatus, completed: bool)
    requires RunsAgree(runs, nextId, db) && SourcesAgree(runs, sources, nextId, db, rowIds) && r in runs
    ensures var c := runs[r].caseId;
            var runs' := runs[r := RunRow(c, status, completed)];
            var db' := db[c := db[c].(status := status, completed := completed)];
            RunsAgree(runs', nextId, db') && SourcesAgree(runs', sources, nextId, db', rowIds)
  {
    var c := runs[r].caseId;
    var db' := db[c := db[c].(status := status, completed := completed)];
    forall c', s: Source | c' in db'
      ensures RowIs(sources, db'[c'], s, rowIds[c'].At(s))
    {
      assert RowIs(sources, db[c'], s, rowIds[c'].At(s));
    }
  }

  lemma RowAgrees(runs: map<nat, RunRow>, sources: map<nat, SourceRow>, nextId: nat,
                  db: map<CaseId, Run>, rowIds: map<CaseId, PerSource<nat>>, c: CaseId, s: Source, row: Row)
    requires RunsAgree(runs, nextId, db) && SourcesAgree(runs, sources, nextId, db, rowIds) && c in db
    ensures var k := rowIds[c].At(s);
            var db' := db[c := C.SetRow(db[c], s, row)];
            && k in sources && sources[k].row == db[c].rows.At(s)
            && RunsAgree(runs, nextId, db')
            && SourcesAgree(runs, sources[k := sources[k].(row := row)], nextId, db', rowIds)
  {
    var k := rowIds[c].At(s);
    assert RowIs(sources, db[c], s, k);
    var sources' := sources[k := sources[k].(row := row)];
    var db' := db[c := C.SetRow(db[c], s, row)];
    forall c', s': Source | c' in db'
      ensures RowIs(sources', db'[c'], s', rowIds[c'].At(s'))
    {
      assert RowIs(sources, db[c'], s', rowIds[c'].At(s'));
    }
  }

  /** The constraint at work: a row is found by its run and its source. */
  lemma UniqueRow(runs: map<nat, RunRow>, sources: map<nat, SourceRow>, nextId: nat,
                  db: map<CaseId, Run>, rowIds: map<CaseId, PerSource<nat>>, c: CaseId, s: Source, k: nat)
    requires RunsAgree(runs, nextId, db) && SourcesAgree(runs, sources, nextId, db, rowIds) && c in db
    ensures k in sources && sources[k].runId == db[c].id && sources[k].source == s <==> k == rowIds[c].At(s)
  {
    assert RowIs(sources, db[c], s, rowIds[c].At(s));
  }

  /** And a row id belongs to one case and one source. */
  lemma UniqueOwner(runs: map<nat, RunRow>, sources: map<nat, SourceRow>, nextId: nat,
                    db: map<CaseId, Run>, rowIds: map<CaseId, PerSource<nat>>, c: CaseId, s: Source)
    requires RunsAgree(runs, nextId, db) && SourcesAgree(runs, sources, nextId, db, rowIds) && c in db
    ensures var k := rowIds[c].At(s);
            && k in sources && sources[k].source == s && sources[k].runId in runs
            && runs[sources[k].runId].caseId == c
  {
    assert RowIs(sources, db[c], s, rowIds[c].At(s));
  }

  /** The runs after a reset of the rows with these ids: those rows are reset, whoever they
      belong to, and nothing else has changed. Ids of no row have no effect. */
  ghost predicate ResetBy(before: map<CaseId, Run>, after: map<CaseId, Run>, rowIds: map<CaseId, PerSource<nat>>,
                          ids: seq<nat>)
    requires rowIds.Keys == before.Keys
  {
    && after.Keys == before.Keys
    && forall c <- before ::
         && after[c].id == before[c].id && after[c].status == before[c].status
         && after[c].completed == before[c].completed
         && forall s: Source :: after[c].rows.At(s) == AfterReset(before[c].rows.At(s), rowIds[c].At(s) in ids)
  }

  function AfterReset(r: Row, listed: bool): Row {
    if listed then C.Reset(r) else r
  }

  lemma ResetByNone(db: map<CaseId, Run>, rowIds: map<CaseId, PerSource<nat>>)
    requires rowIds.Keys == db.Keys
    ensures ResetBy(db, db, rowIds, [])
  {}

  /** The run of a row's owner with that row reset, and no change for an unknown id. */
  ghost predicate ResetOne(before: map<CaseId, Run>, after: map<CaseId, Run>, rowIds: map<CaseId, PerSource<nat>>,
                           id: nat)
    requires rowIds.Keys == before.Keys
  {
    && ((forall c, s: Source | c in before :: rowIds[c].At(s) != id) ==> after == before)
    && forall c, s: Source | c in before ::
         rowIds[c].At(s) == id ==> after == before[c := C.SetRow(before[c], s, C.Reset(before[c].rows.At(s)))]
  }

  ghost predicate DistinctRows(rowIds: map<CaseId, PerSource<nat>>) {
    forall c, d, s: Source, t: Source | c in rowIds && d in rowIds ::
      rowIds[c].At(s) == rowIds[d].At(t) ==> c == d && s == t
  }

  lemma NoRowNoOwner(runs: map<nat, RunRow>, sources: map<nat, SourceRow>, nextId: nat,
                     db: map<CaseId, Run>, rowIds: map<CaseId, PerSource<nat>>, id: nat)
    requires RunsAgree(runs, nextId, db) && SourcesAgree(runs, sources, nextId, db, rowIds)
    ensures id !in sources <==> forall c, s: Source | c in db :: rowIds[c].At(s) != id
  {
    if id !in sources {
      forall c, s: Source | c in db
        ensures rowIds[c].At(s) != id
      {
        UniqueOwner(runs, sources, nextId, db, rowIds, c, s);
      }
    }
  }

  lemma RowsOfOwners(runs: map<nat, RunRow>, sources: map<nat, SourceRow>, nextId: nat,
                     db: map<CaseId, Run>, rowIds: map<CaseId, PerSource<nat>>, id: nat)
    requires RunsAgree(runs, nextId, db) && SourcesAgree(runs, sources, nextId, db, rowIds)
    ensures forall c, s: Source | c in db ::
              rowIds[c].At(s) == id ==> id in sources && sources[id].row == db[c].rows.At(s)
  {
    forall c, s: Source | c in db && rowIds[c].At(s) == id
      ensures id in sources && sources[id].row == db[c].rows.At(s)
    {
      assert RowIs(sources, db[c], s, id);
    }
  }

  /** The rows of one run, as `ORDER BY source` lists them. */
  ghost function RowsOf(r: Run, ids: PerSource<nat>): seq<LookupSource> {
    [LookupSource(ids.court, Court, r.rows.court),
     LookupSource(ids.property, Property, r.rows.property),
     LookupSource(ids.scra, Scra, r.rows.scra)]
  }

  lemma RowsAreDistinct(runs: map<nat, RunRow>, sources: map<nat, SourceRow>, nextId: nat,
                        db: map<CaseId, Run>, rowIds: map<CaseId, PerSource<nat>>)
    requires RunsAgree(runs, nextId, db) && SourcesAgree(runs, sources, nextId, db, rowIds)
    ensures DistinctRows(rowIds)
  {
    forall c, d, s: Source, t: Source | c in rowIds && d in rowIds && rowIds[c].At(s) == rowIds[d].At(t)
      ensures c == d && s == t
    {
      UniqueOwner(runs, sources, nextId, db, rowIds, c, s);
      UniqueOwner(runs, sources, nextId, db, rowIds, d, t);
    }
  }

  lemma RunsAreDistinct(runs: map<nat, RunRow>, nextId: nat, db: map<CaseId, Run>)
    requires RunsAgree(runs, nextId, db)
    ensures forall c, d | c in db && d in db :: db[c].id == db[d].id ==> c == d
  {}

  /** The ids of the rows that are not settled. */
  lemma RetryableIds(r: Run, rowIds: PerSource<nat>, ids: seq<nat>)
    requires rowIds.court != rowIds.property && rowIds.court != rowIds.scra && rowIds.property != rowIds.scra
    requires ids == (if r.rows.court.status.Settled() then [] else [rowIds.court])
                    + (if r.rows.property.status.Settled() then [] else [rowIds.property])
                    + (if r.rows.scra.status.Settled() then [] else [rowIds.scra])
    ensures forall s: Source :: rowIds.At(s) in ids <==> r.rows.At(s).status.SPending? || r.rows.At(s).status.SFailed?
    ensures |ids| == |C.Retryable(r.rows)|
    ensures forall i :: 0 <= i < |ids| ==> ids[i] == rowIds.At(C.Retryable(r.rows)[i])
  {}

  lemma ResetByOneMore(before: map<CaseId, Run>, mid: map<CaseId, Run>, after: map<CaseId, Run>,
                       rowIds: map<CaseId, PerSource<nat>>, ids: seq<nat>, id: nat)
    requires rowIds.Keys == before.Keys && DistinctRows(rowIds)
    requires ResetBy(before, mid, rowIds, ids) && ResetOne(mid, after, rowIds, id)
    ensures ResetBy(before, after, rowIds, ids + [id])
  {
    forall c, s: Source | c in before
      ensures c in after
      ensures after[c].rows.At(s) == AfterReset(before[c].rows.At(s), rowIds[c].At(s) in ids + [id])
    {
      assert rowIds[c].At(s) in ids + [id] <==> rowIds[c].At(s) in ids || rowIds[c].At(s) == id;
    }
    forall c | c in before
      ensures after[c].id == before[c].id && after[c].status == before[c].status
      ensures after[c].completed == before[c].completed
    {}
  }

  /** Listing the rows of one run resets those, in that run only. */
  lemma ResetOfOneRun(before: map<CaseId, Run>, after: map<CaseId, Run>, rowIds: map<CaseId, PerSource<nat>>,
                      ids: seq<nat>, c: CaseId, todo: seq<Source>)
    requires rowIds.Keys == before.Keys && DistinctRows(rowIds) && c in before
    requires ResetBy(before, after, rowIds, ids) && |ids| == |todo|
    requires forall i :: 0 <= i < |ids| ==> ids[i] == rowIds[c].At(todo[i])
    ensures after == before[c := ResetRows(before[c], todo)]
  {
    var r := ResetRows(before[c], todo);
    forall s: Source
      ensures after[c].rows.At(s) == r.rows.At(s)
    {
      ListedIffInTodo(rowIds, ids, c, todo, s);
      ResetRowsAt(before[c], todo, s);
    }
    assert after[c].rows.At(Court) == r.rows.At(Court) && after[c].rows.At(Property) == r.rows.At(Property);
    assert after[c].rows.At(Scra) == r.rows.At(Scra);
    ResetRowsAt(before[c], todo, Court);
    assert after[c] == r;
    forall d | d in before && d != c
      ensures after[d] == before[d]
    {
      OthersNotListed(rowIds, ids, c, todo, d);
      assert after[d].rows.At(Court) == before[d].rows.At(Court);
      assert after[d].rows.At(Property) == before[d].rows.At(Property);
      assert after[d].rows.At(Scra) == before[d].rows.At(Scra);
    }
    assert after == before[c := r];
  }

  lemma ListedIffInTodo(rowIds: map<CaseId, PerSource<nat>>, ids: seq<nat>, c: CaseId, todo: seq<Source>, s: Source)
    requires DistinctRows(rowIds) && c in rowIds && |ids| == |todo|
    requires forall i :: 0 <= i < |ids| ==> ids[i] == rowIds[c].At(todo[i])
    ensures rowIds[c].At(s) in ids <==> s in todo
  {
    if s in todo {
      var i :| 0 <= i < |todo| && todo[i] == s;
      assert ids[i] in ids;
    }
  }

  lemma OthersNotListed(rowIds: map<CaseId, PerSource<nat>>, ids: seq<nat>, c: CaseId, todo: seq<Source>, d: CaseId)
    requires DistinctRows(rowIds) && c in rowIds && d in rowIds && c != d && |ids| == |todo|
    requires forall i :: 0 <= i < |ids| ==> ids[i] == rowIds[c].At(todo[i])
    ensures forall s: Source :: rowIds[d].At(s) !in ids
  {}

  // -------------------------------------------------------------------------
  // The store
  // -------------------------------------------------------------------------

  class LookupStore {
    const hasCourt: map<CaseId, bool>   // the cases table
    var runs: map<nat, RunRow>
    var sources: map<nat, SourceRow>
    var nextId: nat
    ghost var db: map<CaseId, Run>
    ghost var rowIds: map<CaseId, PerSource<nat>>

    ghost predicate Valid()
      reads this
    {
      RunsAgree(runs, nextId, db) && SourcesAgree(runs, sources, nextId, db, rowIds)
    }

    constructor (hasCourt: map<CaseId, bool>)
      ensures Valid() && db == map[] && this.hasCourt == hasCourt
    {
      this.hasCourt := hasCourt;
      runs, sources, nextId := map[], map[], 0;
      db, rowIds := map[], map[];
    }

    method GetLookupRunByCaseID(caseId: CaseId) returns (r: Option<LookupRun>)
      requires Valid()
      ensures r == if caseId in db
                   then Some(LookupRun(db[caseId].id, db[caseId].status, db[caseId].completed))
                   else None
    {
      var found := set k | k in runs && runs[k].caseId == caseId;
      assert caseId in db ==> db[caseId].id in found;
      if found == {} {
        return None;
      }
      var id :| id in found;
      return Some(LookupRun(id, runs[id].status, runs[id].completed));
    }

    /** One transaction: nothing is visible before the commit, and a violated constraint
        leaves the tables as they were. */
    method CreateLookupRun(caseId: CaseId) returns (id: Option<nat>)
      requires Valid()
      modifies this
      ensures Valid()
      ensures id.None? <==> caseId in old(db)
      ensures id.None? ==> db == old(db) && runs == old(runs) && sources == old(sources)
      ensures id.Some? ==> db == old(db)[caseId := C.FreshRun(id.value)] && id.value !in old(runs)
      ensures id.Some? ==>
                && db[caseId].id == id.value && db[caseId].status.Pending? && !db[caseId].completed
                && forall s: Source :: db[caseId].rows.At(s) == Row(SPending, 0, None, None, None, None)
    {
      if exists k :: k in runs && runs[k].caseId == caseId {
        return None;
      }
      CommitAgrees(runs, sources, nextId, db, rowIds, caseId);
      var runId := nextId;
      var txSources := sources;
      for i := 0 to |SOURCE_NAMES|
        invariant txSources == InsertRows(sources, runId, runId + 1, i)
      {
        txSources := txSources[runId + 1 + i := SourceRow(runId, SOURCE_NAMES[i], FRESH_ROW)];
      }
      runs := runs[runId := RunRow(caseId, Pending, false)];
      sources := txSources;
      nextId := runId + 4;
      db := db[caseId := C.FreshRun(runId)];
      rowIds := rowIds[caseId := PerSource(runId + 2, runId + 1, runId + 3)];
      return Some(runId);
    }

    /** `UPDATE lookup_runs SET status, completed_at WHERE id`. */
    method SetRunStatus(runId: nat, status: RunStatus, completed: bool)
      requires Valid()
      modifies this
      ensures Valid() && rowIds == old(rowIds)
      ensures runId !in old(runs) ==> db == old(db)
      ensures forall c <- old(db) :: old(db)[c].id == runId ==>
                db == old(db)[c := old(db)[c].(status := status, completed := completed)]
    {
      if runId in runs {
        StatusAgrees(runs, sources, nextId, db, rowIds, runId, status, completed);
        var c := runs[runId].caseId;
        runs := runs[runId := RunRow(c, status, completed)];
        db := db[c := db[c].(status := status, completed := completed)];
      }
    }

    method CompleteRun(runId: nat, status: RunStatus)
      requires Valid()
      modifies this
      ensures Valid() && rowIds == old(rowIds)
      ensures runId !in old(runs) ==> db == old(db)
      ensures forall c <- old(db) :: old(db)[c].id == runId ==>
                db == old(db)[c := old(db)[c].(status := status, completed := true)]
    {
      SetRunStatus(runId, status, true);
    }

    method ResetRunToPending(runId: nat)
      requires Valid()
      modifies this
      ensures Valid() && rowIds == old(rowIds)
      ensures runId !in old(runs) ==> db == old(db)
      ensures forall c <- old(db) :: old(db)[c].id == runId ==>
                db == old(db)[c := old(db)[c].(status := Pending, completed := false)]
    {
      SetRunStatus(runId, Pending, false);
    }

    /** `UPDATE lookup_sources ... WHERE id`: of the row with that id, if there is one. */
    method SetSourceResult(sourceId: nat, row: Row)
      requires Valid()
      modifies this
      ensures Valid() && rowIds == old(rowIds)
      ensures sourceId !in old(sources) ==> db == old(db)
      ensures forall c, s: Source | c in old(db) ::
                old(rowIds)[c].At(s) == sourceId ==> db == old(db)[c := C.SetRow(old(db)[c], s, row)]
    {
      if sourceId in sources {
        ghost var c, s := runs[sources[sourceId].runId].caseId, sources[sourceId].source;
        RowAgrees(runs, sources, nextId, db, rowIds, c, s, row);
        RowsAreDistinct(runs, sources, nextId, db, rowIds);
        sources := sources[sourceId := sources[sourceId].(row := row)];
        db := db[c := C.SetRow(db[c], s, row)];
      } else {
        NoRowNoOwner(runs, sources, nextId, db, rowIds, sourceId);
      }
    }

    /** `UPDATE lookup_sources SET status = 'pending', ... WHERE id`: attempts and search id
        stay. */
    method ResetSource(sourceId: nat)
      requires Valid()
      modifies this
      ensures Valid() && rowIds == old(rowIds)
      ensures ResetOne(old(db), db, rowIds, sourceId)
      ensures forall c, s: Source | c in old(db) && rowIds[c].At(s) == sourceId ::
                var r := old(db)[c].rows.At(s);
                db[c].rows.At(s) == Row(SPending, r.attempts, None, None, None, r.searchId)
    {
      NoRowNoOwner(runs, sources, nextId, db, rowIds, sourceId);
      RowsOfOwners(runs, sources, nextId, db, rowIds, sourceId);
      if sourceId in sources {
        SetSourceResult(sourceId, C.Reset(sources[sourceId].row));
      }
    }

    /** A loop of single-row updates, each visible at once. */
    method ResetSourcesToPending(ids: seq<nat>)
      requires Valid()
      modifies this
      ensures Valid() && rowIds == old(rowIds)
      ensures ResetBy(old(db), db, rowIds, ids)
      ensures forall c, s: Source | c in old(db) ::
                var r := old(db)[c].rows.At(s);
                db[c].rows.At(s) == if rowIds[c].At(s) in ids
                                    then Row(SPending, r.attempts, None, None, None, r.searchId) else r
    {
      RowsAreDistinct(runs, sources, nextId, db, rowIds);
      ResetByNone(db, rowIds);
      for i := 0 to |ids|
        invariant Valid() && rowIds == old(rowIds)
        invariant ResetBy(old(db), db, rowIds, ids[..i])
      {
        ghost var mid := db;
        ResetSource(ids[i]);
        ResetByOneMore(old(db), mid, db, rowIds, ids[..i], ids[i]);
        assert ids[..i] + [ids[i]] == ids[..i + 1];
      }
      assert ids[..|ids|] == ids;
    }

    /** `SELECT ... WHERE run_id ORDER BY source`. */
    method GetSourcesByRunID(runId: nat) returns (rows: seq<LookupSource>)
      requires Valid()
      ensures runId !in runs ==> rows == []
      ensures forall c <- db :: db[c].id == runId ==> rows == RowsOf(db[c], rowIds[c])
      ensures forall c <- db :: db[c].id == runId ==>
                && |rows| == 3 && rows[0].source.Court? && rows[1].source.Property? && rows[2].source.Scra?
                && forall i :: 0 <= i < 3 ==> rows[i].id == rowIds[c].At(rows[i].source)
                                              && rows[i].row == db[c].rows.At(rows[i].source)
    {
      if runId !in runs {
        return [];
      }
      rows := [];
      ghost var c := runs[runId].caseId;
      for i := 0 to |ALL_SOURCES|
        invariant rows == RowsOf(db[c], rowIds[c])[..i]
      {
        var s := ALL_SOURCES[i];
        assert RowIs(sources, db[c], s, rowIds[c].At(s));
        var k :| k in sources && sources[k].runId == runId && sources[k].source == s;
        UniqueRow(runs, sources, nextId, db, rowIds, c, s, k);
        rows := rows + [LookupSource(k, s, sources[k].row)];
      }
    }

    /** `... AND status IN ('pending', 'failed') ORDER BY source`. */
    method GetRetryableSources(runId: nat) returns (ids: seq<nat>)
      requires Valid()
      ensures runId !in runs ==> ids == []
      ensures forall c <- db :: db[c].id == runId ==>
                && |ids| == |C.Retryable(db[c].rows)|
                && forall i :: 0 <= i < |ids| ==> ids[i] == rowIds[c].At(C.Retryable(db[c].rows)[i])
      ensures forall c, s: Source | c in db && db[c].id == runId ::
                rowIds[c].At(s) in ids <==> db[c].rows.At(s).status.SPending? || db[c].rows.At(s).status.SFailed?
    {
      var rows := GetSourcesByRunID(runId);
      if runId !in runs {
        return [];
      }
      ghost var c := runs[runId].caseId;
      assert rows == RowsOf(db[c], rowIds[c]);
      ids := (if rows[0].row.status.Settled() then [] else [rows[0].id])
             + (if rows[1].row.status.Settled() then [] else [rows[1].id])
             + (if rows[2].row.status.Settled() then [] else [rows[2].id]);
      RetryableIds(db[c], rowIds[c], ids);
      RunsAreDistinct(runs, nextId, db);
      RowsAreDistinct(runs, sources, nextId, db, rowIds);
    }
  }
}
