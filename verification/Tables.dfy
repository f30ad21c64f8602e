/** The three tables, the statements the repository issues against them, and what every statement keeps. */
module Tables {
  import opened Model

  /** Entries by primary key, revisions by their unique pair (entry id, revision), and the append-only outbox. */
  datatype Db = Db(entries: map<string, Entry>, revisions: map<(string, int), Snapshot>, outbox: seq<Event>)

  const EMPTY_DB := Db(map[], map[], [])

  datatype DbError = StaleVersion | Broken

  /** The statements that change a table. */
  datatype Stmt =
    | InsertEntry(row: Entry)
    | UpdateEntry(row: Entry, expected: int)
    | InsertSnapshot(row: Entry)
    | ReviewSnapshot(row: Entry, expectedStatus: Status)
    | AppendEvent(event: Event)

  // ----- reads -----

  predicate ScopeTaken(db: Db, scope: Scope) {
    exists id :: id in db.entries && db.entries[id].scope == scope
  }

  function Get(db: Db, id: string): Option<Entry> {
    if id in db.entries then Some(db.entries[id]) else None
  }

  /** The row of a scope. At most one exists, see `ScopesUnique`. */
  ghost function GetByScope(db: Db, scope: Scope): (r: Option<Entry>)
    ensures r.None? <==> !ScopeTaken(db, scope)
    ensures r.Some? ==> exists id :: id in db.entries && db.entries[id] == r.value && r.value.scope == scope
  {
    if ScopeTaken(db, scope) then
      var id :| id in db.entries && db.entries[id].scope == scope;
      Some(db.entries[id])
    else None
  }

  /** Joins the revision with its entry, so a revision without an entry would not be found. */
  function GetRevision(db: Db, id: string, revision: int): Option<Snapshot> {
    if (id, revision) in db.revisions && id in db.entries then Some(db.revisions[(id, revision)]) else None
  }

  // ----- writes -----

  /** The columns an UPDATE of config_entries assigns; id, scope and creator stay. */
  function Overwrite(stored: Entry, row: Entry): Entry {
    stored.(content := row.content, status := row.status, revision := row.revision, published := row.published,
         review := row.review, version := stored.version + 1, updatedBy := row.updatedBy)
  }

  /** The snapshot row inserted for an entry: its creator is whoever last updated the entry. */
  function SnapshotOf(row: Entry): Snapshot {
    Snapshot(row.content, row.status, row.review, 1, row.updatedBy, row.updatedBy)
  }

  function Reviewed(s: Snapshot, row: Entry): Snapshot {
    s.(status := row.status, review := row.review, version := s.version + 1, updatedBy := row.updatedBy)
  }

  /** One statement: it fails on an id that is not a uuid, on a violated unique or foreign key, or when its guard
      matches no row. */
  function Exec(db: Db, stmt: Stmt): Result<Db, DbError> {
    match stmt
    case InsertEntry(row) =>
      if !UuidShape(row.id) || row.id in db.entries || ScopeTaken(db, row.scope) then Err(Broken)
      else Ok(db.(entries := db.entries[row.id := row]))
    case UpdateEntry(row, expected) =>
      if row.id in db.entries && db.entries[row.id].version == expected
      then Ok(db.(entries := db.entries[row.id := Overwrite(db.entries[row.id], row)]))
      else Err(StaleVersion)
    case InsertSnapshot(row) =>
      if (row.id, row.revision) in db.revisions || row.id !in db.entries then Err(Broken)
      else Ok(db.(revisions := db.revisions[(row.id, row.revision) := SnapshotOf(row)]))
    case ReviewSnapshot(row, expectedStatus) =>
      var key := (row.id, row.revision);
      if key in db.revisions && db.revisions[key].status == expectedStatus
      then Ok(db.(revisions := db.revisions[key := Reviewed(db.revisions[key], row)]))
      else Err(StaleVersion)
    case AppendEvent(event) =>
      Ok(db.(outbox := db.outbox + [event]))
  }

  /** Where the environment can make a request fail. */
  datatype Site =
    | AtReadTarget | AtReadEntry | AtBegin | AtCommit | AtRollback
    | AtInsertEntry | AtUpdateEntry | AtInsertSnapshot | AtReviewSnapshot | AtAppendEvent

  function SiteOf(stmt: Stmt): Site {
    match stmt
    case InsertEntry(_) => AtInsertEntry
    case UpdateEntry(_, _) => AtUpdateEntry
    case InsertSnapshot(_) => AtInsertSnapshot
    case ReviewSnapshot(_, _) => AtReviewSnapshot
    case AppendEvent(_) => AtAppendEvent
  }

  /** A statement that may additionally be hit by a fault of the connection. */
  function TryExec(db: Db, stmt: Stmt, faults: set<Site>): Result<Db, DbError> {
    if SiteOf(stmt) in faults then Err(Broken) else Exec(db, stmt)
  }

  /** A transaction body: the statements in order, up to the first failure. */
  function ExecAll(db: Db, stmts: seq<Stmt>, faults: set<Site>): Result<Db, DbError>
    decreases |stmts|
  {
    if stmts == [] then Ok(db)
    else match TryExec(db, stmts[0], faults)
      case Err(e) => Err(e)
      case Ok(next) => ExecAll(next, stmts[1..], faults)
  }

  function Then(r: Result<Db, DbError>, stmt: Stmt, faults: set<Site>): Result<Db, DbError> {
    match r
    case Err(e) => Err(e)
    case Ok(db) => TryExec(db, stmt, faults)
  }

  lemma ExecOne(db: Db, a: Stmt, faults: set<Site>)
    ensures ExecAll(db, [a], faults) == TryExec(db, a, faults)
  {
    assert [a][1..] == [];
  }

  lemma ExecTwo(db: Db, a: Stmt, b: Stmt, faults: set<Site>)
    ensures ExecAll(db, [a, b], faults) == Then(TryExec(db, a, faults), b, faults)
  {
    hide Exec;
    assert [a, b][1..] == [b];
    if TryExec(db, a, faults).Ok? {
      ExecOne(TryExec(db, a, faults).value, b, faults);
    }
  }

  lemma ExecThree(db: Db, a: Stmt, b: Stmt, c: Stmt, faults: set<Site>)
    ensures ExecAll(db, [a, b, c], faults) == Then(Then(TryExec(db, a, faults), b, faults), c, faults)
  {
    hide Exec;
    assert [a, b, c][1..] == [b, c];
    if TryExec(db, a, faults).Ok? {
      ExecTwo(TryExec(db, a, faults).value, b, c, faults);
    }
  }

  /** UPDATE under the version guard. */
  predicate Current(db: Db, row: Entry, expected: int) {
    row.id in db.entries && db.entries[row.id].version == expected
  }

  function Updated(db: Db, row: Entry): map<string, Entry>
    requires row.id in db.entries
  {
    db.entries[row.id := Overwrite(db.entries[row.id], row)]
  }

  /** The body of a draft update. */
  lemma DraftBody(db: Db, row: Entry, expected: int, faults: set<Site>)
    ensures var r := ExecAll(db, [UpdateEntry(row, expected)], faults);
      && (r.Ok? <==> Current(db, row, expected) && AtUpdateEntry !in faults)
      && (r.Ok? ==> r.value == db.(entries := Updated(db, row)))
  {
    ExecOne(db, UpdateEntry(row, expected), faults);
  }

  /** The body of a publication. */
  lemma PublishBody(db: Db, row: Entry, expected: int, event: Event, faults: set<Site>)
    ensures var r := ExecAll(db, [UpdateEntry(row, expected), AppendEvent(event)], faults);
      && (r.Ok? <==> Current(db, row, expected) && faults !! {AtUpdateEntry, AtAppendEvent})
      && (r.Ok? ==> r.value == Db(Updated(db, row), db.revisions, db.outbox + [event]))
  {
    ExecTwo(db, UpdateEntry(row, expected), AppendEvent(event), faults);
  }

  /** The body of a submission or a rollback. */
  lemma SnapshotBody(db: Db, row: Entry, bumped: Entry, expected: int, event: Event, faults: set<Site>)
    requires bumped.id == row.id
    ensures var r := ExecAll(db, [UpdateEntry(row, expected), InsertSnapshot(bumped), AppendEvent(event)], faults);
      var key := (bumped.id, bumped.revision);
      && (r.Ok? <==> Current(db, row, expected) && key !in db.revisions
                     && faults !! {AtUpdateEntry, AtInsertSnapshot, AtAppendEvent})
      && (r.Ok? ==> r.value == Db(Updated(db, row), db.revisions[key := SnapshotOf(bumped)], db.outbox + [event]))
  {
    ExecThree(db, UpdateEntry(row, expected), InsertSnapshot(bumped), AppendEvent(event), faults);
  }

  /** The body of a review. */
  lemma ReviewBody(db: Db, row: Entry, expected: int, event: Event, faults: set<Site>)
    ensures var body := [ReviewSnapshot(row, PendingApproval), UpdateEntry(row, expected), AppendEvent(event)];
      var r := ExecAll(db, body, faults);
      var key := (row.id, row.revision);
      && (r.Ok? <==> Current(db, row, expected) && key in db.revisions && db.revisions[key].status == PendingApproval
                     && faults !! {AtReviewSnapshot, AtUpdateEntry, AtAppendEvent})
      && (r.Ok? ==>
            r.value == Db(Updated(db, row), db.revisions[key := Reviewed(db.revisions[key], row)], db.outbox + [event]))
  {
    ExecThree(db, ReviewSnapshot(row, PendingApproval), UpdateEntry(row, expected), AppendEvent(event), faults);
  }

  // ----- what the schema guarantees -----

  ghost predicate ScopesUnique(db: Db) {
    forall a, b :: a in db.entries && b in db.entries && db.entries[a].scope == db.entries[b].scope ==> a == b
  }

  ghost predicate Keyed(db: Db) {
    && (forall id :: id in db.entries ==> db.entries[id].id == id && UuidShape(id))
    && (forall k :: k in db.revisions ==> k.0 in db.entries)
  }

  ghost predicate Constraints(db: Db) {
    ScopesUnique(db) && Keyed(db)
  }

  /** With unique scopes, looking a row's scope up finds that row. */
  lemma GetByScopeFinds(db: Db, id: string)
    requires Constraints(db) && id in db.entries
    ensures GetByScope(db, db.entries[id].scope) == Some(db.entries[id])
  {
  }

  lemma ExecKeepsConstraints(db: Db, stmt: Stmt)
    requires Constraints(db) && Exec(db, stmt).Ok?
    ensures Constraints(Exec(db, stmt).value)
  {
  }

  // ----- what no statement undoes -----

  /** A decided snapshot is frozen; a pending one may be decided, keeping content and creator. */
  ghost predicate SnapshotEvolves(s: Snapshot, t: Snapshot) {
    && t.content == s.content && t.createdBy == s.createdBy
    && (t == s || (s.status == PendingApproval && t.status in {Approved, Rejected}))
  }

  /** A row keeps identity, scope and creator, and every change of it raises its version. */
  ghost predicate RowEvolves(e: Entry, f: Entry) {
    && f.id == e.id && f.scope == e.scope && f.createdBy == e.createdBy
    && (f == e || e.version < f.version)
  }

  ghost predicate EntriesEvolve(a: Db, b: Db) {
    forall id :: id in a.entries ==> id in b.entries && RowEvolves(a.entries[id], b.entries[id])
  }

  ghost predicate SnapshotsEvolve(a: Db, b: Db) {
    forall k :: k in a.revisions ==> k in b.revisions && SnapshotEvolves(a.revisions[k], b.revisions[k])
  }

  /** Rows are never removed, row versions only grow, snapshots are decided at most once and never
      change content, and the outbox only grows. */
  ghost predicate Evolves(a: Db, b: Db) {
    EntriesEvolve(a, b) && SnapshotsEvolve(a, b) && a.outbox <= b.outbox
  }

  lemma EvolvesReflexive(db: Db)
    ensures Evolves(db, db)
  {
  }

  lemma EvolvesTransitive(a: Db, b: Db, c: Db)
    requires Evolves(a, b) && Evolves(b, c)
    ensures Evolves(a, c)
  {
  }

  /** Reviews are only ever issued against pending snapshots and only to decide them. */
  predicate Decides(stmt: Stmt) {
    stmt.ReviewSnapshot? ==> stmt.expectedStatus == PendingApproval && stmt.row.status in {Approved, Rejected}
  }

  predicate AllDecide(stmts: seq<Stmt>) {
    forall i :: 0 <= i < |stmts| ==> Decides(stmts[i])
  }

  lemma ExecEvolves(db: Db, stmt: Stmt)
    requires Exec(db, stmt).Ok? && Decides(stmt)
    ensures Evolves(db, Exec(db, stmt).value)
  {
  }

  lemma {:induction false} ExecAllEvolves(db: Db, stmts: seq<Stmt>, faults: set<Site>)
    requires Constraints(db) && ExecAll(db, stmts, faults).Ok?
    requires AllDecide(stmts)
    ensures Evolves(db, ExecAll(db, stmts, faults).value)
    ensures Constraints(ExecAll(db, stmts, faults).value)
    decreases |stmts|
  {
    if stmts != [] {
      var next := Exec(db, stmts[0]).value;
      ExecEvolves(db, stmts[0]);
      ExecKeepsConstraints(db, stmts[0]);
      ExecAllEvolves(next, stmts[1..], faults);
      EvolvesTransitive(db, next, ExecAll(next, stmts[1..], faults).value);
    }
  }
}
