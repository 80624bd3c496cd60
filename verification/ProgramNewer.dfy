/**
 Newer against older: of the actual programs of one id the one received last is kept, told by
 comparing receptions as numbers, in one update and over every run of updates.
 */
module ProgramNewer {
  import opened Basics
  import opened ProgramModel
  import opened ProgramWrite
  import opened ProgramUpsert
  import opened ProgramAuthority

  function Reception(p: Program): nat { if p.revision.Some? then p.revision.value.reception else 0 }

  // ------------------------------------------------------------------- one batch, one id

  /** Of the actual programs of an id, the one received last, and the last of those. */
  ghost predicate LatestActual(ps: seq<Program>, id: Id, k: int) {
    && 0 <= k < |ps| && ps[k].id == id && Actual(ps[k])
    && forall j | 0 <= j < |ps| && ps[j].id == id && Actual(ps[j]) ::
         Reception(ps[j]) <= Reception(ps[k]) && (j > k ==> Reception(ps[j]) < Reception(ps[k]))
  }

  /** Everything but the extended part. */
  function Plain(p: Program): Program { p.(extended := [], extRevision := None) }

  ghost predicate AllRevised(ps: seq<Program>, id: Id) {
    forall j | 0 <= j < |ps| && ps[j].id == id :: ps[j].revision.Some?
  }

  lemma PreferredPlain(previous: Program, incoming: Program)
    requires previous.revision.Some? && incoming.revision.Some?
    ensures Plain(PreferPending(previous, incoming))
         == if Actual(previous) && (Actual(incoming) ==> Reception(incoming) < Reception(previous)) then Plain(previous)
            else if Actual(incoming) then Plain(incoming)
            else Plain(PreferPending(previous, incoming))
    ensures !Actual(previous) && !Actual(incoming) ==> !Actual(PreferPending(previous, incoming))
    ensures PreferPending(previous, incoming).revision.Some?
  {}

  /** Its place, negative if there is none. */
  ghost function Place(ps: seq<Program>, id: Id): int
    ensures -1 <= Place(ps, id) < |ps|
  {
    if ps == [] then -1
    else
      var n := |ps| - 1;
      var k := Place(ps[..n], id);
      if ps[n].id == id && Actual(ps[n]) && (k < 0 || Reception(ps[n]) >= Reception(ps[k])) then n else k
  }

  lemma {:induction false} PlaceIsLatest(ps: seq<Program>, id: Id)
    ensures Place(ps, id) >= 0 ==> LatestActual(ps, id, Place(ps, id))
    ensures Place(ps, id) < 0 ==> forall j | 0 <= j < |ps| && ps[j].id == id :: !Actual(ps[j])
  {
    if ps != [] {
      var before := ps[..|ps| - 1];
      PlaceIsLatest(before, id);
      assert forall j | 0 <= j < |before| :: ps[j] == before[j];
    }
  }

  lemma OnlyOneLatest(ps: seq<Program>, id: Id, j: int, k: int)
    requires LatestActual(ps, id, j) && LatestActual(ps, id, k)
    ensures j == k
  {}

  lemma {:induction false} PendingIsPlace(ps: seq<Program>, id: Id)
    requires AllRevised(ps, id)
    ensures id in Pending(ps) ==> Pending(ps)[id].revision.Some?
    ensures Place(ps, id) < 0 ==> id !in Pending(ps) || !Actual(Pending(ps)[id])
    ensures Place(ps, id) >= 0 ==> id in Pending(ps) && Plain(Pending(ps)[id]) == Plain(ps[Place(ps, id)])
                                   && Actual(Pending(ps)[id])
  {
    if ps != [] {
      var n := |ps| - 1;
      var before := ps[..n];
      PendingIsPlace(before, id);
      PlaceIsLatest(before, id);
      if ps[n].id == id && id in Pending(before) { PreferredPlain(Pending(before)[id], ps[n]); }
    }
  }

  /** Of the programs of an id in one batch, the actual one received last is taken, apart from the extended part. */
  lemma BatchTakesLatest(ps: seq<Program>, id: Id, k: int)
    requires AllRevised(ps, id) && LatestActual(ps, id, k)
    ensures id in Pending(ps) && Plain(Pending(ps)[id]) == Plain(ps[k])
  {
    PlaceIsLatest(ps, id);
    PendingIsPlace(ps, id);
    OnlyOneLatest(ps, id, k, Place(ps, id));
  }

  // ------------------------------------------------------------------------- the tables

  ghost predicate TablesOk(tables: Tables) { forall key | key in tables :: tables[key].table == key.table }

  /** Nothing newer than `x` is known of a table. */
  predicate UpTo(tables: Tables, key: Table, x: nat) { key in tables ==> tables[key].reception <= x }

  predicate RevisionUpTo(p: Program, r: Option<Revision>, key: Table, x: nat) {
    r.Some? && TableOf(p, r.value) == key ==> r.value.reception <= x
  }

  predicate BothUpTo(p: Program, key: Table, x: nat) {
    RevisionUpTo(p, p.revision, key, x) && RevisionUpTo(p, p.extRevision, key, x)
  }

  predicate Names(p: Program, key: Table) {
    (p.revision.Some? && TableOf(p, p.revision.value) == key)
    || (p.extRevision.Some? && TableOf(p, p.extRevision.value) == key)
  }

  /** What is noted of a table is up to `x`, or would be from what is known if nothing is. */
  ghost predicate NotedUpTo(tables: Tables, known: Tables, key: Table, x: nat) {
    if key in tables then tables[key].reception <= x else UpTo(known, key, x)
  }

  lemma NoteUpTo(tables: Tables, known: Tables, p: Program, r: Option<Revision>, key: Table, x: nat)
    ensures NotedUpTo(NoteTable(tables, known, p, r), known, key, x)
            <==> NotedUpTo(tables, known, key, x) && RevisionUpTo(p, r, key, x)
    ensures key in NoteTable(tables, known, p, r)
            <==> key in tables || (r.Some? && TableOf(p, r.value) == key)
    ensures TablesOk(tables) && TablesOk(known) ==> TablesOk(NoteTable(tables, known, p, r))
  {}

  /** The newest known of a table in a batch is up to `x` exactly if everything known and everything pending is. */
  lemma {:induction false} NewestUpTo(known: Tables, pending: map<Id, Program>, ids: seq<Id>, key: Table, x: nat)
    requires TablesOk(known)
    ensures NotedUpTo(NewestTables(known, pending, ids), known, key, x)
            <==> UpTo(known, key, x) && forall id | id in ids && id in pending :: BothUpTo(pending[id], key, x)
    ensures (exists id :: id in ids && id in pending && Names(pending[id], key))
            ==> key in NewestTables(known, pending, ids)
    ensures TablesOk(NewestTables(known, pending, ids))
  {
    if ids != [] {
      var n := |ids| - 1;
      var before, last := NewestTables(known, pending, ids[..n]), ids[n];
      NewestUpTo(known, pending, ids[..n], key, x);
      assert ids == ids[..n] + [last];
      if last in pending {
        var p := pending[last];
        NoteUpTo(before, known, p, p.revision, key, x);
        NoteUpTo(NoteTable(before, known, p, p.revision), known, p, p.extRevision, key, x);
      }
    }
  }

  // ------------------------------------------------------------------------- one update

  /** Nothing received later is known of the program's id or of its table, or comes in its batch. */
  ghost predicate Fresh(mem: Memory, ps: seq<Program>, p: Program)
    requires p.revision.Some?
  {
    var key, x := TableOf(p, p.revision.value), Reception(p);
    && (p.id in mem.basic && !Other(mem.basic[p.id]) ==> mem.basic[p.id].reception <= x)
    && UpTo(mem.tables, key, x) && forall id | id in Pending(ps) :: BothUpTo(Pending(ps)[id], key, x)
  }

  lemma BatchUpTo(mem: Memory, ps: seq<Program>, id: Id, key: Table, x: nat)
    requires TablesOk(mem.tables) && id in Pending(ps) && Names(Pending(ps)[id], key)
    ensures key in BatchTables(mem, ps) && BatchTables(mem, ps)[key].table == key.table
    ensures BatchTables(mem, ps)[key].reception <= x
            <==> UpTo(mem.tables, key, x) && forall i | i in Pending(ps) :: BothUpTo(Pending(ps)[i], key, x)
  {
    NewestUpTo(mem.tables, Pending(ps), Order(ps), key, x);
    forall i ensures i in Pending(ps) <==> i in Order(ps) { PendingIds(ps, i); }
  }

  lemma AcceptsExactly(mem: Memory, tables: Tables, existing: Option<Program>, p: Program, key: Table)
    requires Actual(p) && key == TableOf(p, p.revision.value) && key in tables && tables[key].table == key.table
    requires existing.Some? ==> Stored(existing.value) == existing.value
    ensures AcceptBasic(mem, tables, existing, p)
            <==> tables[key].reception <= Reception(p)
                 && (p.id in mem.basic && !Other(mem.basic[p.id]) ==> mem.basic[p.id].reception <= Reception(p))
  {}

  /** An actual program is accepted exactly if it is fresh. */
  lemma AcceptedExactlyIfFresh(store: Store, mem: Memory, ps: seq<Program>, id: Id)
    requires StoreOk(store) && TablesOk(mem.tables) && id in Pending(ps) && Actual(Pending(ps)[id])
    ensures var p := Pending(ps)[id];
            AcceptBasic(mem, BatchTables(mem, ps), Row(store, id), p) <==> Fresh(mem, ps, p)
  {
    var p := Pending(ps)[id];
    PendingIds(ps, id);
    BatchUpTo(mem, ps, id, TableOf(p, p.revision.value), Reception(p));
    AcceptsExactly(mem, BatchTables(mem, ps), Row(store, id), p, TableOf(p, p.revision.value));
  }

  /** The row has the program's time and standing, and its name if it has one. */
  ghost predicate Shows(row: Program, p: Program) {
    && row.id == p.id && Start(row) == Start(p) && Duration(row) == Duration(p) && Actual(row) == Actual(p)
    && (p.name != "" ==> row.name == p.name)
  }

  lemma AcceptedShows(mem: Memory, tables: Tables, existing: Option<Program>, p: Program)
    requires AcceptBasic(mem, tables, existing, p) && p.revision.Some?
    requires existing.Some? ==> existing.value.id == p.id && !Flagged(existing.value)
    ensures var q := Decided(mem, tables, existing, p);
            q.Some? && Shows(q.value, p) && q.value.revision == p.revision
            && q.value.start == p.start && q.value.duration == p.duration
  {}

  lemma StoredShows(q: Program, p: Program)
    requires Shows(q, p)
    ensures Shows(Stored(q), p)
  {}

  /** Two rows that are stored alike show the same. */
  lemma ShowsAlike(q: Program, row: Program, p: Program)
    requires Shows(q, p) && Stored(q) == Stored(row)
    ensures Shows(row, p)
  {}

  /** What an update does to the row of an id whose program of the batch is actual: a fresh one that is neither
      displaced nor blocked gives it its time and name; otherwise what there is of a row keeps them. */
  lemma UpdateTakesFresh(store: Store, mem: Memory, ps: seq<Program>, id: Id)
    requires StoreOk(store) && TablesOk(mem.tables) && id in Pending(ps) && Actual(Pending(ps)[id])
    requires id in store ==> !Flagged(store[id])
    ensures var p, after := Pending(ps)[id], StoreAfter(store, mem, ps);
            var w := WriteAll(store, mem, BatchChanges(store, mem, ps));
            && (id in after <==> id !in w.removed && (id in store || (Fresh(mem, ps, p) && id !in w.blocked)))
            && (id in after ==> if Fresh(mem, ps, p) && id !in w.blocked then Shows(after[id], p)
                                else Faithful(store[id], after[id]))
  {
    var p, tables, after := Pending(ps)[id], BatchTables(mem, ps), StoreAfter(store, mem, ps);
    PendingIds(ps, id);
    RowAfter(store, mem, ps, id);
    AcceptedExactlyIfFresh(store, mem, ps, id);
    var q := Decided(mem, tables, Row(store, id), p);
    if Fresh(mem, ps, p) {
      AcceptedShows(mem, tables, Row(store, id), p);
      StoredShows(q.value, p);
      if ChangeFor(store, mem, tables, p).None? { ShowsAlike(q.value, store[id], p); }
    } else if id in store {
      RejectedIsFaithful(mem, tables, store[id], p);
      StoredFaithful(store[id], q.value);
    }
  }

  // -------------------------------------------------------------------- one program alone

  /** A row in the way of the program: it overlaps its place, is not on air unless the program is, and only a
      revision received later is remembered of it. */
  ghost predicate InTheWay(store: Store, mem: Memory, p: Program, id: Id) {
    && id in store && id != p.id && Overlap(p, store[id]) && (Flagged(store[id]) ==> p.present)
    && store[id].revision.None? && id in mem.basic && !Other(mem.basic[id])
    && mem.basic[id].reception > Reception(p)
  }

  ghost predicate Obstructed(store: Store, mem: Memory, p: Program) {
    !(p.id in store && SameTime(store[p.id], p)) && exists id :: InTheWay(store, mem, p, id)
  }

  lemma BlocksExactly(store: Store, mem: Memory, c: Change, p: Program, id: Id)
    requires StoreOk(store) && Actual(p) && c.row.id == p.id && c.row.revision == p.revision && c.onAir == p.present
    requires c.row.start == p.start && c.row.duration == p.duration
    ensures BlockedBy(store, mem, map[p.id := c.row], c, id) <==> InTheWay(store, mem, p, id)
  {}

  lemma BlockedExactlyIfObstructed(store: Store, mem: Memory, c: Change, p: Program)
    requires StoreOk(store) && Actual(p) && c.row.id == p.id && c.row.revision == p.revision && c.onAir == p.present
    requires c.row.start == p.start && c.row.duration == p.duration
    ensures var w := WriteOne(store, mem, Progress(map[], {}, {}), c);
            p.id !in w.removed && (p.id in w.blocked <==> Obstructed(store, mem, p))
  {
    assert map[][p.id := c.row] == map[p.id := c.row];
    forall id ensures BlockedBy(store, mem, map[p.id := c.row], c, id) <==> InTheWay(store, mem, p, id) {
      BlocksExactly(store, mem, c, p, id);
    }
    if Obstructed(store, mem, p) {
      var id :| InTheWay(store, mem, p, id);
      assert id in store.Keys + map[p.id := c.row].Keys;
    }
  }

  lemma Alone(p: Program)
    ensures Pending([p]) == map[p.id := p]
  {
    var ps := [p];
    assert ps[..|ps| - 1] == [] && Pending([]) == map[];
  }

  /** One actual program over the row of its id, which is not on air: it gives the row its time and name exactly if
      no later reception is remembered of its id or its table and no row is in its way; otherwise the row keeps its
      time and any name it has. */
  lemma NewerReplacesOlder(store: Store, mem: Memory, p: Program)
    requires StoreOk(store) && TablesOk(mem.tables) && Actual(p) && p.id in store && !Flagged(store[p.id])
    ensures var key, x, after := TableOf(p, p.revision.value), Reception(p), StoreAfter(store, mem, [p]);
            && p.id in after
            && if (p.id in mem.basic && !Other(mem.basic[p.id]) ==> mem.basic[p.id].reception <= x)
                  && (key in mem.tables ==> mem.tables[key].reception <= x)
                  && RevisionUpTo(p, p.extRevision, key, x) && !Obstructed(store, mem, p)
               then Shows(after[p.id], p) else Faithful(store[p.id], after[p.id])
  {
    Alone(p);
    UpdateTakesFresh(store, mem, [p], p.id);
    OwnStays(store, mem, p);
    if Fresh(mem, [p], p) { BlockedAlike(store, mem, p); }
  }

  /** A program alone does not displace its own row. */
  lemma OwnStays(store: Store, mem: Memory, p: Program)
    requires StoreOk(store)
    ensures p.id !in WriteAll(store, mem, BatchChanges(store, mem, [p])).removed
  {
    OneProgram(store, mem, p);
    DecidedId(mem, BatchTables(mem, [p]), Row(store, p.id), p);
    var c := ChangeFor(store, mem, BatchTables(mem, [p]), p);
    if c.Some? { OneChange(store, mem, c.value); }
  }

  lemma BlockedAlike(store: Store, mem: Memory, p: Program)
    requires StoreOk(store) && TablesOk(mem.tables) && Actual(p) && p.id in store && !Flagged(store[p.id])
    requires Fresh(mem, [p], p)
    ensures p.id in WriteAll(store, mem, BatchChanges(store, mem, [p])).blocked <==> Obstructed(store, mem, p)
  {
    var tables := BatchTables(mem, [p]);
    Alone(p);
    AcceptedExactlyIfFresh(store, mem, [p], p.id);
    AcceptedShows(mem, tables, Row(store, p.id), p);
    OneProgram(store, mem, p);
    var c := ChangeFor(store, mem, tables, p);
    if c.Some? {
      OneChange(store, mem, c.value);
      BlockedExactlyIfObstructed(store, mem, c.value, p);
    } else {
      ShowsAlike(Decided(mem, tables, Row(store, p.id), p).value, store[p.id], p);
    }
  }

  // --------------------------------------------------------------- what stays over an update

  /** Every program of the id has a basic revision, and none is on air. */
  ghost predicate Steady(ps: seq<Program>, id: Id) {
    forall j | 0 <= j < |ps| && ps[j].id == id :: ps[j].revision.Some? && !Flagged(ps[j])
  }

  lemma {:induction false} PendingSteady(ps: seq<Program>, id: Id)
    requires Steady(ps, id)
    ensures id in Pending(ps) ==> Pending(ps)[id].revision.Some? && !Flagged(Pending(ps)[id])
  {
    if ps != [] { PendingSteady(ps[..|ps| - 1], id); }
  }

  lemma UnflaggedStays(mem: Memory, tables: Tables, existing: Option<Program>, p: Program)
    requires !Flagged(p) && (existing.Some? ==> !Flagged(existing.value))
    ensures var q := Decided(mem, tables, existing, p); q.Some? ==> !Flagged(q.value)
  {}

  lemma RowStaysOffAir(store: Store, mem: Memory, ps: seq<Program>, id: Id)
    requires StoreOk(store) && Steady(ps, id) && (id in store ==> !Flagged(store[id]))
    ensures id in StoreAfter(store, mem, ps) ==> !Flagged(StoreAfter(store, mem, ps)[id])
  {
    RowAfter(store, mem, ps, id);
    PendingSteady(ps, id);
    PendingIds(ps, id);
    if id in Pending(ps) { UnflaggedStays(mem, BatchTables(mem, ps), Row(store, id), Pending(ps)[id]); }
  }

  /** The actual program of the id received last in a batch. */
  ghost function Winner(ps: seq<Program>, id: Id): Program
    requires Place(ps, id) >= 0
  {
    ps[Place(ps, id)]
  }

  /** The batch brings a fresh actual program of the id that is neither displaced nor blocked. */
  ghost predicate Applied(store: Store, mem: Memory, ps: seq<Program>, id: Id) {
    && Place(ps, id) >= 0 && Winner(ps, id).revision.Some? && Fresh(mem, ps, Winner(ps, id))
    && var w := WriteAll(store, mem, BatchChanges(store, mem, ps)); id !in w.removed && id !in w.blocked
  }

  lemma WinnerIsPending(ps: seq<Program>, id: Id)
    requires Steady(ps, id) && Place(ps, id) >= 0
    ensures id in Pending(ps) && Plain(Pending(ps)[id]) == Plain(Winner(ps, id)) && Actual(Pending(ps)[id])
  {
    PendingIsPlace(ps, id);
  }

  /** An update that applies shows its program. */
  lemma AppliedShows(store: Store, mem: Memory, ps: seq<Program>, id: Id)
    requires StoreOk(store) && TablesOk(mem.tables) && Steady(ps, id) && (id in store ==> !Flagged(store[id]))
    requires Applied(store, mem, ps, id)
    ensures id in StoreAfter(store, mem, ps) && Shows(StoreAfter(store, mem, ps)[id], Winner(ps, id))
            && Actual(StoreAfter(store, mem, ps)[id])
  {
    WinnerIsPending(ps, id);
    UpdateTakesFresh(store, mem, ps, id);
  }

  /** Any other leaves an actual row as it is, and makes none. */
  lemma UnappliedKeeps(store: Store, mem: Memory, ps: seq<Program>, id: Id)
    requires StoreOk(store) && TablesOk(mem.tables) && ProvenanceOk(store, mem, id)
    requires Steady(ps, id) && (id in store ==> !Flagged(store[id])) && !Applied(store, mem, ps, id)
    ensures var after := StoreAfter(store, mem, ps);
            && (id in after && Actual(after[id]) ==> id in store && Actual(store[id]))
            && (id in after && id in store && Actual(store[id]) ==> Faithful(store[id], after[id]))
    ensures id in mem.basic && !Other(mem.basic[id]) && id !in store ==> id !in StoreAfter(store, mem, ps)
  {
    if Place(ps, id) >= 0 {
      WinnerIsPending(ps, id);
      UpdateTakesFresh(store, mem, ps, id);
    } else {
      PendingIsPlace(ps, id);
      OtherKeeps(store, mem, ps, id);
    }
  }

  lemma OtherKeeps(store: Store, mem: Memory, ps: seq<Program>, id: Id)
    requires StoreOk(store) && ProvenanceOk(store, mem, id) && (id in Pending(ps) ==> IsOther(Pending(ps)[id]))
    requires id in store ==> !Flagged(store[id])
    ensures var after := StoreAfter(store, mem, ps);
            && (id in after && Actual(after[id]) ==> id in store && Actual(store[id]))
            && (id in after && id in store && Actual(store[id]) ==> Faithful(store[id], after[id]))
    ensures id in mem.basic && !Other(mem.basic[id]) && id !in store ==> id !in StoreAfter(store, mem, ps)
  {
    RowAfter(store, mem, ps, id);
    if id in Pending(ps) {
      var p, tables := Pending(ps)[id], BatchTables(mem, ps);
      PendingIds(ps, id);
      var q := Decided(mem, tables, Row(store, id), p);
      if q.Some? && Actual(q.value) { OtherOverActual(mem, tables, Row(store, id), p); }
      if q.Some? { StoredActual(q.value); }
      if id in store && Actual(store[id]) && q.Some? {
        OtherRejected(mem, tables, store[id], p);
        RejectedIsFaithful(mem, tables, store[id], p);
        StoredFaithful(store[id], q.value);
      }
    }
  }

  /** An other program makes no actual row. */
  lemma OtherOverActual(mem: Memory, tables: Tables, existing: Option<Program>, p: Program)
    requires IsOther(p) && (existing.Some? ==> !Flagged(existing.value))
    requires var q := Decided(mem, tables, existing, p); q.Some? && Actual(q.value)
    ensures existing.Some? && Actual(existing.value)
  {}

  // --------------------------------------------------------------------- what is remembered

  lemma MemoryOf(store: Store, mem: Memory, ps: seq<Program>, id: Id)
    requires StoreOk(store)
    ensures var w := WriteAll(store, mem, BatchChanges(store, mem, ps));
            Lookup(MemoryAfter(store, mem, ps).basic, id)
            == if id in Pending(ps) && id !in w.removed && id !in w.blocked
               then Remembered(Lookup(mem.basic, id), AcceptedRow(store, mem, BatchTables(mem, ps), Pending(ps)[id]))
               else Lookup(mem.basic, id)
  {
    BatchOk(ps);
    PendingIds(ps, id);
    RecordAllBasic(store, mem, BatchTables(mem, ps), Pending(ps), Order(ps),
                   WriteAll(store, mem, BatchChanges(store, mem, ps)), id);
  }

  /** What an update that applies brings is remembered. */
  lemma AppliedRemembers(store: Store, mem: Memory, ps: seq<Program>, id: Id)
    requires StoreOk(store) && TablesOk(mem.tables) && Steady(ps, id) && (id in store ==> !Flagged(store[id]))
    requires Applied(store, mem, ps, id)
    ensures Lookup(MemoryAfter(store, mem, ps).basic, id) == Winner(ps, id).revision
  {
    WinnerIsPending(ps, id);
    PendingIds(ps, id);
    MemoryOf(store, mem, ps, id);
    AcceptedExactlyIfFresh(store, mem, ps, id);
    AcceptedShows(mem, BatchTables(mem, ps), Row(store, id), Pending(ps)[id]);
  }

  /** A known actual revision of this reception. */
  predicate Knows(known: Option<Revision>, x: nat) {
    known.Some? && !Other(known.value) && known.value.reception == x
  }

  /** One that does not apply leaves an actual memory as late as it was. */
  lemma UnappliedRemembers(store: Store, mem: Memory, ps: seq<Program>, id: Id, x: nat)
    requires StoreOk(store) && TablesOk(mem.tables) && Steady(ps, id) && !Applied(store, mem, ps, id)
    requires id in store ==> !Flagged(store[id]) && Actual(store[id])
    requires Knows(Lookup(mem.basic, id), x)
    ensures Knows(Lookup(MemoryAfter(store, mem, ps).basic, id), x)
  {
    var w := WriteAll(store, mem, BatchChanges(store, mem, ps));
    MemoryOf(store, mem, ps, id);
    if id in Pending(ps) && id !in w.removed && id !in w.blocked {
      PendingIds(ps, id);
      PendingSteady(ps, id);
      PendingIsPlace(ps, id);
      if Place(ps, id) >= 0 { AcceptedExactlyIfFresh(store, mem, ps, id); }
      RefusedRemembers(mem, BatchTables(mem, ps), Row(store, id), Pending(ps)[id], x);
    }
  }

  lemma RefusedRemembers(mem: Memory, tables: Tables, existing: Option<Program>, p: Program, x: nat)
    requires !AcceptBasic(mem, tables, existing, p) && Knows(Lookup(mem.basic, p.id), x)
    requires existing.Some? ==> Actual(existing.value) && Stored(existing.value) == existing.value
    ensures var row := if Accepted(mem, tables, existing, p) then Decided(mem, tables, existing, p) else None;
            Knows(Remembered(Lookup(mem.basic, p.id), row), x)
  {}

  lemma {:induction false} RecordKeepsTables(store: Store, mem: Memory, tables: Tables, pending: map<Id, Program>,
                                             ids: seq<Id>, w: Progress)
    requires TablesOk(mem.tables)
    ensures TablesOk(RecordAll(store, mem, tables, pending, ids, w).tables)
  {
    if ids != [] {
      var before, id := RecordAll(store, mem, tables, pending, ids[..|ids| - 1], w), ids[|ids| - 1];
      RecordKeepsTables(store, mem, tables, pending, ids[..|ids| - 1], w);
      if id in pending {
        var row := AcceptedRow(store, mem, tables, pending[id]);
        if row.Some? { RecordRowTables(before, row.value); }
      }
    }
  }

  lemma RecordRowTables(mem: Memory, row: Program)
    requires TablesOk(mem.tables)
    ensures TablesOk(RecordExtended(RecordBasic(mem, row), row).tables)
  {}

  // --------------------------------------------------------------------------------- runs

  /** The announced tables carry their own revisions. */
  ghost predicate Proper(tables: seq<(Table, Revision)>) {
    forall j | 0 <= j < |tables| :: tables[j].1.table == tables[j].0.table
  }

  lemma {:induction false} AnnouncedTables(mem: Memory, tables: seq<(Table, Revision)>)
    requires Proper(tables) && TablesOk(mem.tables)
    ensures TablesOk(Announced(mem, tables).tables)
  {
    if tables != [] { AnnouncedTables(mem, tables[..|tables| - 1]); }
  }

  /** What an update finds: the store and the memory, its own tables announced. */
  ghost function Found(store: Store, updates: seq<Update>, k: nat): (Store, Memory)
    requires k < |updates|
  {
    (RunStore(store, updates[..k]), Announced(RunMemory(store, updates[..k]), updates[k].tables))
  }

  ghost predicate AppliedAt(store: Store, updates: seq<Update>, k: nat, id: Id) {
    k < |updates| && Applied(Found(store, updates, k).0, Found(store, updates, k).1, updates[k].programs, id)
  }

  /** Which updates applied. */
  ghost function Marks(store: Store, updates: seq<Update>, id: Id): seq<bool> {
    seq(|updates|, k requires 0 <= k < |updates| => AppliedAt(store, updates, k, id))
  }

  /** The last of the first `n` marks that is set, negative if none is. */
  function Last(marks: seq<bool>, n: nat): int
    requires n <= |marks|
    ensures -1 <= Last(marks, n) < n
  {
    if n == 0 then -1 else if marks[n - 1] then n - 1 else Last(marks, n - 1)
  }

  lemma {:induction false} LastOfPrefix(marks: seq<bool>, n: nat, m: nat)
    requires m <= n <= |marks|
    ensures Last(marks[..n], m) == Last(marks, m)
  {
    if m > 0 { LastOfPrefix(marks, n, m - 1); }
  }

  /** Of numbers that never fall from one mark to the next, the last mark's is the greatest. */
  lemma {:induction false} LastIsGreatest(marks: seq<bool>, xs: seq<nat>, n: nat, j: nat)
    requires |xs| == |marks| && j < n <= |marks| && marks[j]
    requires forall k | 0 <= k < |marks| && marks[k] && Last(marks, k) >= 0 :: xs[Last(marks, k)] <= xs[k]
    ensures j <= Last(marks, n) && xs[j] <= xs[Last(marks, n)]
  {
    if j < n - 1 { LastIsGreatest(marks, xs, n - 1, j); }
  }

  ghost function LastApplied(store: Store, updates: seq<Update>, id: Id): int
    ensures -1 <= LastApplied(store, updates, id) < |updates|
  {
    Last(Marks(store, updates, id), |updates|)
  }

  lemma MarksOfPrefix(store: Store, updates: seq<Update>, n: nat, id: Id)
    requires n <= |updates|
    ensures Marks(store, updates[..n], id) == Marks(store, updates, id)[..n]
  {
    forall j | 0 <= j < n ensures AppliedAt(store, updates[..n], j, id) <==> AppliedAt(store, updates, j, id) {
      assert updates[..n][..j] == updates[..j];
    }
  }

  lemma LastAppliedNext(store: Store, updates: seq<Update>, id: Id)
    requires updates != []
    ensures var n := |updates| - 1;
            LastApplied(store, updates, id)
            == if AppliedAt(store, updates, n, id) then n else LastApplied(store, updates[..n], id)
  {
    var n := |updates| - 1;
    MarksOfPrefix(store, updates, n, id);
    LastOfPrefix(Marks(store, updates, id), n, n);
  }

  ghost predicate SteadyRun(store: Store, updates: seq<Update>, id: Id) {
    && StoreOk(store) && (id in store ==> !Flagged(store[id]))
    && forall k | 0 <= k < |updates| :: Steady(updates[k].programs, id) && Proper(updates[k].tables)
  }

  lemma {:induction false} RunSteady(store: Store, updates: seq<Update>, id: Id)
    requires SteadyRun(store, updates, id)
    ensures StoreOk(RunStore(store, updates)) && Provenance(RunStore(store, updates), RunMemory(store, updates))
    ensures TablesOk(RunMemory(store, updates).tables)
    ensures id in RunStore(store, updates) ==> !Flagged(RunStore(store, updates)[id])
  {
    RunKeepsProvenance(store, updates);
    if updates != [] {
      var n := |updates| - 1;
      var u := updates[n];
      RunSteady(store, updates[..n], id);
      var st, mem := RunStore(store, updates[..n]), Announced(RunMemory(store, updates[..n]), u.tables);
      AnnouncedTables(RunMemory(store, updates[..n]), u.tables);
      RowStaysOffAir(st, mem, u.programs, id);
      RecordKeepsTables(st, mem, BatchTables(mem, u.programs), Pending(u.programs), Order(u.programs),
                        WriteAll(st, mem, BatchChanges(st, mem, u.programs)));
    }
  }

  /** The row and the memory of an id are those of the last update that applied, or of the start. */
  ghost predicate Latest(store: Store, updates: seq<Update>, id: Id, st: Store, mem: Memory) {
    var k := LastApplied(store, updates, id);
    if k < 0 then
      id in st && Actual(st[id]) ==>
        id in store && Actual(store[id]) && Start(st[id]) == Start(store[id]) && Duration(st[id]) == Duration(store[id])
    else
      && Place(updates[k].programs, id) >= 0
      && var p := Winner(updates[k].programs, id);
      && (id in st ==> Actual(st[id]) && Shows(st[id], p))
      && Knows(Lookup(mem.basic, id), Reception(p))
  }

  lemma UnappliedLatest(store: Store, updates: seq<Update>, u: Update, id: Id, st: Store, mem: Memory)
    requires StoreOk(st) && TablesOk(mem.tables) && ProvenanceOk(st, mem, id) && Steady(u.programs, id)
    requires (id in st ==> !Flagged(st[id])) && !Applied(st, mem, u.programs, id)
    requires Latest(store, updates, id, st, mem)
    ensures Latest(store, updates, id, StoreAfter(st, mem, u.programs), MemoryAfter(st, mem, u.programs))
  {
    var after := StoreAfter(st, mem, u.programs);
    UnappliedKeeps(st, mem, u.programs, id);
    var k := LastApplied(store, updates, id);
    if k >= 0 {
      UnappliedRemembers(st, mem, u.programs, id, Reception(Winner(updates[k].programs, id)));
    }
  }

  lemma AppliedLatest(store: Store, updates: seq<Update>, id: Id, st: Store, mem: Memory)
    requires updates != [] && AppliedAt(store, updates, |updates| - 1, id)
    requires StoreOk(st) && TablesOk(mem.tables) && (id in st ==> !Flagged(st[id]))
    requires var ps := updates[|updates| - 1].programs; Steady(ps, id) && Applied(st, mem, ps, id)
    ensures var ps := updates[|updates| - 1].programs;
            Latest(store, updates, id, StoreAfter(st, mem, ps), MemoryAfter(st, mem, ps))
  {
    var ps := updates[|updates| - 1].programs;
    AppliedShows(st, mem, ps, id);
    AppliedRemembers(st, mem, ps, id);
    WinnerIsPending(ps, id);
    LastAppliedNext(store, updates, id);
  }

  /** The last update that applied is of a prefix, and of the whole if no later one applied. */
  lemma LatestOfPrefix(store: Store, updates: seq<Update>, id: Id, st: Store, mem: Memory)
    requires updates != [] && !AppliedAt(store, updates, |updates| - 1, id)
    requires Latest(store, updates[..|updates| - 1], id, st, mem)
    ensures Latest(store, updates, id, st, mem)
  {
    var k := LastApplied(store, updates, id);
    LastAppliedNext(store, updates, id);
    assert k >= 0 ==> updates[..|updates| - 1][k] == updates[k];
  }

  /** In every run since a restart in which the programs of an id are not on air: an actual row of the id has the
      time and name of the last update that applied, or its time of before the run if none did. */
  lemma {:induction false} RunKeepsLatest(store: Store, updates: seq<Update>, id: Id)
    requires SteadyRun(store, updates, id)
    ensures Latest(store, updates, id, RunStore(store, updates), RunMemory(store, updates))
  {
    if updates != [] {
      var n := |updates| - 1;
      var u, before := updates[n], updates[..n];
      RunKeepsLatest(store, before, id);
      RunSteady(store, before, id);
      var st, mem := RunStore(store, before), Announced(RunMemory(store, before), u.tables);
      AnnouncedTables(RunMemory(store, before), u.tables);
      AnnouncedKeeps(RunMemory(store, before), u.tables);
      assert ProvenanceOk(st, RunMemory(store, before), id);
      if AppliedAt(store, updates, n, id) {
        AppliedLatest(store, updates, id, st, mem);
      } else {
        assert Latest(store, before, id, st, mem);
        UnappliedLatest(store, before, u, id, st, mem);
        LatestOfPrefix(store, updates, id, RunStore(store, updates), RunMemory(store, updates));
      }
    }
  }

  /** An update that applies was not received before what is remembered. */
  lemma AppliedIsLater(mem: Memory, tables: seq<(Table, Revision)>, store: Store, ps: seq<Program>, id: Id, x: nat)
    requires Applied(store, Announced(mem, tables), ps, id) && Knows(Lookup(mem.basic, id), x)
    ensures x <= Reception(Winner(ps, id))
  {
    AnnouncedKeeps(mem, tables);
    PlaceIsLatest(ps, id);
  }

  /** What an update brings of the id was received then. */
  ghost function ReceptionAt(updates: seq<Update>, k: nat, id: Id): nat {
    if k < |updates| && Place(updates[k].programs, id) >= 0 then Reception(Winner(updates[k].programs, id)) else 0
  }

  lemma LaterThanBefore(store: Store, updates: seq<Update>, n: nat, id: Id)
    requires n < |updates| && SteadyRun(store, updates, id) && AppliedAt(store, updates, n, id)
    ensures var m := LastApplied(store, updates[..n], id);
            m >= 0 ==> ReceptionAt(updates, m, id) <= ReceptionAt(updates, n, id)
  {
    var before := updates[..n];
    var m := LastApplied(store, before, id);
    if m >= 0 {
      assert before[m] == updates[m];
      RunKeepsLatest(store, before, id);
      AppliedIsLater(RunMemory(store, before), updates[n].tables, RunStore(store, before), updates[n].programs, id,
                     Reception(Winner(updates[m].programs, id)));
    }
  }

  /** That update is the one received last of all that applied. */
  lemma LastAppliedIsLatest(store: Store, updates: seq<Update>, id: Id, j: nat)
    requires SteadyRun(store, updates, id) && AppliedAt(store, updates, j, id)
    ensures var k := LastApplied(store, updates, id);
            j <= k && ReceptionAt(updates, j, id) <= ReceptionAt(updates, k, id)
  {
    var marks := Marks(store, updates, id);
    var xs: seq<nat> := seq(|updates|, k requires 0 <= k < |updates| => ReceptionAt(updates, k, id));
    forall n | 0 <= n < |marks| && marks[n] && Last(marks, n) >= 0 ensures xs[Last(marks, n)] <= xs[n] {
      MarksOfPrefix(store, updates, n, id);
      LastOfPrefix(marks, n, n);
      LaterThanBefore(store, updates, n, id);
    }
    LastIsGreatest(marks, xs, |marks|, j);
  }
}
