/** Schedules of other transport streams against actual ones (sections 6.1.1 and 6.1.2 of ARIB TR-B15). */
module ProgramAuthority {
  import opened Basics
  import opened ProgramModel
  import opened ProgramWrite
  import opened ProgramUpsert

  predicate IsOther(p: Program) { p.revision.Some? && Other(p.revision.value) }

  /** An other program is rejected by an actual row. */
  lemma OtherRejected(mem: Memory, tables: Tables, row: Program, p: Program)
    requires IsOther(p) && Actual(row) && (p.id in mem.basic ==> !Other(mem.basic[p.id]))
    ensures !AcceptBasic(mem, tables, Some(row), p)
  {}

  /** The row keeps its time, standing and any name it has. */
  ghost predicate Faithful(row: Program, q: Program) {
    && q.id == row.id && q.start == row.start && q.duration == row.duration && q.revision == row.revision
    && (row.name != "" ==> q.name == row.name)
  }

  lemma RejectedIsFaithful(mem: Memory, tables: Tables, row: Program, p: Program)
    requires !AcceptBasic(mem, tables, Some(row), p)
    ensures Decided(mem, tables, Some(row), p).Some? && Faithful(row, Decided(mem, tables, Some(row), p).value)
  {}

  /** The program names the row as it is named, or leaves its name open, or the row has none. */
  predicate NameFits(row: Program, p: Program) { row.name == "" || p.name == "" || p.name == row.name }

  /** A program without a basic revision that leaves actual rows alone: it neither moves nor renames one, and
      takes no place that overlaps one, unless it takes it for a row of an other table. */
  ghost predicate Harmless(store: Store, p: Program) {
    && p.revision.None?
    && (p.id in store && Actual(store[p.id]) ==> StaysAt(p, store[p.id]) && NameFits(store[p.id], p))
    && ((p.id in store && IsOther(store[p.id])) || Undisturbing(store, p) || Clear(store, p))
  }

  /** Undecided times stay undecided. */
  predicate StaysAt(p: Program, row: Program) { p.start == row.start && Duration(p) == Duration(row) }

  ghost predicate Clear(store: Store, p: Program) {
    forall id | id in store && Actual(store[id]) && id != p.id :: !Overlap(p, store[id])
  }

  ghost predicate Yields(store: Store, p: Program) { IsOther(p) || Harmless(store, p) }

  lemma {:induction false} PendingYields(store: Store, ps: seq<Program>, id: Id)
    requires forall i | 0 <= i < |ps| :: Yields(store, ps[i])
    ensures id in Pending(ps) ==> Yields(store, Pending(ps)[id])
  {
    if ps != [] {
      var n := |ps| - 1;
      PendingYields(store, ps[..n], id);
      if id == ps[n].id && id in Pending(ps[..n]) {
        PreferredYields(store, Pending(ps[..n])[id], ps[n]);
      }
    }
  }

  /** What decides yielding survives the merging of extended parts. */
  lemma PreferredYields(store: Store, previous: Program, incoming: Program)
    requires Yields(store, previous) && Yields(store, incoming)
    ensures Yields(store, PreferPending(previous, incoming))
  {
    var q := PreferPending(previous, incoming);
    if q.revision == incoming.revision && q.start == incoming.start && q.duration == incoming.duration
       && q.name == incoming.name && q.id == incoming.id {
      SameBasics(store, incoming, q);
    } else {
      SameBasics(store, previous, q);
    }
  }

  lemma SameBasics(store: Store, p: Program, q: Program)
    requires Yields(store, p) && q.revision == p.revision && q.id == p.id
    requires q.start == p.start && q.duration == p.duration && q.name == p.name
    ensures Yields(store, q)
  {}

  /** A change that leaves actual rows alone: it is faithful over one, and it is an other row, needs no room or
      overlaps none. */
  ghost predicate Modest(store: Store, c: Change) {
    && (c.row.id in store && Actual(store[c.row.id]) ==>
           Faithful(store[c.row.id], Stored(c.row)) && StaysAt(c.row, store[c.row.id]))
    && (IsOther(c.row) || Undisturbing(store, c.row) || Clear(store, c.row))
  }

  lemma OtherIsModest(store: Store, mem: Memory, tables: Tables, p: Program)
    requires StoreOk(store) && ProvenanceOk(store, mem, p.id) && IsOther(p)
    ensures ChangeFor(store, mem, tables, p).Some? ==> Modest(store, ChangeFor(store, mem, tables, p).value)
  {
    if p.id in store {
      var row := store[p.id];
      if Actual(row) { OtherRejected(mem, tables, row, p); }
      if !AcceptBasic(mem, tables, Some(row), p) {
        RejectedIsFaithful(mem, tables, row, p);
        StoredFaithful(row, Decided(mem, tables, Some(row), p).value);
      } else {
        AcceptedIsOther(mem, tables, row, p);
      }
    }
  }

  lemma AcceptedIsOther(mem: Memory, tables: Tables, row: Program, p: Program)
    requires AcceptBasic(mem, tables, Some(row), p) && IsOther(p) && !Actual(row) && row.id == p.id
    ensures var q := Decided(mem, tables, Some(row), p); q.Some? && IsOther(q.value)
  {}

  lemma StoredFaithful(row: Program, q: Program)
    requires Stored(row) == row && Faithful(row, q)
    ensures Faithful(row, Stored(q))
  {}

  /** A program without a basic revision is always accepted, with its own time. */
  lemma DecidedWithoutBasic(mem: Memory, tables: Tables, existing: Option<Program>, p: Program)
    requires p.revision.None? && (existing.Some? ==> existing.value.id == p.id)
    ensures var q := Decided(mem, tables, existing, p);
            && q.Some? && q.value.id == p.id && q.value.start == p.start && q.value.duration == p.duration
            && q.value.revision == (if existing.Some? then existing.value.revision else None)
            && q.value.name == (if p.name == "" && existing.Some? then existing.value.name else p.name)
  {}

  lemma SameTimeFaithful(row: Program, p: Program, q: Program)
    requires Stored(row) == row && q.id == row.id && q.start == p.start && q.duration == p.duration
             && q.revision == row.revision
    requires q.name == if p.name == "" then row.name else p.name
    ensures Faithful(row, Stored(q)) <==> SameTime(row, p) && NameFits(row, p)
  {}

  lemma HarmlessIsModest(store: Store, mem: Memory, tables: Tables, p: Program)
    requires StoreOk(store) && Harmless(store, p)
    ensures ChangeFor(store, mem, tables, p).Some? ==> Modest(store, ChangeFor(store, mem, tables, p).value)
  {
    DecidedWithoutBasic(mem, tables, Row(store, p.id), p);
    var q := Decided(mem, tables, Row(store, p.id), p).value;
    if p.id in store && Actual(store[p.id]) { SameTimeFaithful(store[p.id], p, q); }
  }

  // ------------------------------------------------------------------------ writing

  /** Actual rows are neither removed nor blocked, and are known as actual where they were. */
  ghost predicate Safe(store: Store, w: Progress, id: Id) {
    id in store && Actual(store[id]) ==>
      && id !in w.removed && id !in w.blocked
      && (id in w.written ==> Actual(w.written[id]) && w.written[id].id == id && StaysAt(w.written[id], store[id]))
  }

  /** An actual row that an other one overlaps blocks it. */
  lemma ActualBlocks(store: Store, mem: Memory, written: Store, c: Change, id: Id)
    requires IsOther(c.row) && id in store && Actual(store[id]) && (id in written ==> Actual(written[id]))
    requires Rival(store, written, c, id)
    ensures IsBlocked(store, mem, written, c)
  {
    assert BlockedBy(store, mem, written, c, id);
  }

  /** A row that is clear of the actual ones rivals none of them. */
  lemma ClearRivalsNone(store: Store, written: Store, c: Change, id: Id)
    requires Clear(store, c.row) && id in store && Actual(store[id]) && store[id].id == id
             && Stored(store[id]) == store[id]
    requires id in written && id != c.row.id ==> written[id].id == id && StaysAt(written[id], store[id])
    ensures !Rival(store, written, c, id)
  {}

  lemma ModestOver(store: Store, c: Change)
    requires Modest(store, c) && StoreOk(store) && c.row.id in store && Actual(store[c.row.id])
    ensures Actual(c.row) && Undisturbing(store, c.row)
  {
    StoredTimes(c.row);
    StoredActual(c.row);
  }

  lemma ModestStep(store: Store, mem: Memory, w: Progress, c: Change)
    requires Modest(store, c) && StoreOk(store) && forall id :: Safe(store, w, id)
    ensures forall id :: Safe(store, WriteOne(store, mem, w, c), id)
  {
    var w', written := WriteOne(store, mem, w, c), w.written[c.row.id := c.row];
    forall id ensures Safe(store, w', id) {
      assert Safe(store, w, id);
      if id in store && Actual(store[id]) {
        if id == c.row.id { ModestOver(store, c); }
        if !Undisturbing(store, c.row) && id in Rivals(store, written, c) {
          if IsOther(c.row) { ActualBlocks(store, mem, written, c, id); } else {
            ClearRivalsNone(store, written, c, id);
          }
        }
      }
    }
  }

  lemma {:induction false} ModestRun(store: Store, mem: Memory, cs: seq<Change>)
    requires StoreOk(store) && forall j | 0 <= j < |cs| :: Modest(store, cs[j])
    ensures forall id :: Safe(store, WriteAll(store, mem, cs), id)
  {
    if cs == [] {
      forall id ensures Safe(store, WriteAll(store, mem, cs), id) {}
    } else {
      var n := |cs| - 1;
      ModestRun(store, mem, cs[..n]);
      ModestStep(store, mem, WriteAll(store, mem, cs[..n]), cs[n]);
    }
  }

  lemma YieldingIsModest(store: Store, mem: Memory, ps: seq<Program>, id: Id)
    requires StoreOk(store) && Provenance(store, mem) && (forall i | 0 <= i < |ps| :: Yields(store, ps[i]))
             && id in Pending(ps)
    ensures var c := ChangeFor(store, mem, BatchTables(mem, ps), Pending(ps)[id]); c.Some? ==> Modest(store, c.value)
  {
    var p := Pending(ps)[id];
    PendingYields(store, ps, id);
    PendingIds(ps, id);
    assert ProvenanceOk(store, mem, p.id);
    if IsOther(p) { OtherIsModest(store, mem, BatchTables(mem, ps), p); } else {
      HarmlessIsModest(store, mem, BatchTables(mem, ps), p);
    }
  }

  lemma BatchModest(store: Store, mem: Memory, ps: seq<Program>)
    requires StoreOk(store) && Provenance(store, mem) && forall i | 0 <= i < |ps| :: Yields(store, ps[i])
    ensures forall j | 0 <= j < |BatchChanges(store, mem, ps)| :: Modest(store, BatchChanges(store, mem, ps)[j])
  {
    var tables, pending, ids, cs := BatchTables(mem, ps), Pending(ps), Order(ps), BatchChanges(store, mem, ps);
    BatchOk(ps);
    ChangesOk(store, mem, tables, pending, ids);
    forall j | 0 <= j < |cs| ensures Modest(store, cs[j]) {
      assert ChangeOk(store, mem, tables, pending, ids, cs, j);
      YieldingIsModest(store, mem, ps, cs[j].row.id);
    }
  }

  /** A schedule whose programs come from other tables, or are harmless without a basic revision, deletes no
      actual row, and leaves its start, duration, revision and any name it has. */
  lemma YieldingNeverOverrides(store: Store, mem: Memory, ps: seq<Program>, id: Id)
    requires StoreOk(store) && Provenance(store, mem) && (forall i | 0 <= i < |ps| :: Yields(store, ps[i]))
    requires id in store && Actual(store[id])
    ensures id in StoreAfter(store, mem, ps) && Faithful(store[id], StoreAfter(store, mem, ps)[id])
  {
    var cs := BatchChanges(store, mem, ps);
    BatchModest(store, mem, ps);
    ModestRun(store, mem, cs);
    assert Safe(store, WriteAll(store, mem, cs), id);
    RowAfter(store, mem, ps, id);
    if id in Pending(ps) {
      PendingIds(ps, id);
      YieldingIsModest(store, mem, ps, id);
      var c := ChangeFor(store, mem, BatchTables(mem, ps), Pending(ps)[id]);
      if c.Some? { DecidedId(mem, BatchTables(mem, ps), Row(store, id), Pending(ps)[id]); }
    }
  }

  /** In particular one whose programs all come from other tables. */
  lemma OtherNeverOverridesActual(store: Store, mem: Memory, ps: seq<Program>, id: Id)
    requires StoreOk(store) && Provenance(store, mem) && (forall i | 0 <= i < |ps| :: IsOther(ps[i]))
    requires id in store && Actual(store[id])
    ensures id in StoreAfter(store, mem, ps) && Faithful(store[id], StoreAfter(store, mem, ps)[id])
  {
    YieldingNeverOverrides(store, mem, ps, id);
  }

  // ------------------------------------------------------------------------- runs

  lemma {:induction false} PutAllOk(store: Store, w: Progress, cs: seq<Change>)
    requires StoreOk(store)
    ensures StoreOk(PutAll(store, w, cs))
  {
    if cs != [] { PutAllOk(store, w, cs[..|cs| - 1]); }
  }

  /** One update: the tables it announces, then its programs. */
  datatype Update = Update(tables: seq<(Table, Revision)>, programs: seq<Program>)

  /** The memory with announced tables, empty sections included. */
  function Announced(mem: Memory, tables: seq<(Table, Revision)>): Memory {
    if tables == [] then mem
    else
      var before, (key, r) := Announced(mem, tables[..|tables| - 1]), tables[|tables| - 1];
      before.(tables := NoteNewest(before.tables, key, r))
  }

  lemma {:induction false} AnnouncedKeeps(mem: Memory, tables: seq<(Table, Revision)>)
    ensures Announced(mem, tables).basic == mem.basic && Announced(mem, tables).extended == mem.extended
  {
    if tables != [] { AnnouncedKeeps(mem, tables[..|tables| - 1]); }
  }

  function StoreAfterUpdate(store: Store, mem: Memory, u: Update): Store {
    StoreAfter(store, Announced(mem, u.tables), u.programs)
  }

  function MemoryAfterUpdate(store: Store, mem: Memory, u: Update): Memory {
    MemoryAfter(store, Announced(mem, u.tables), u.programs)
  }

  lemma UpdateKeepsProvenance(store: Store, mem: Memory, u: Update)
    requires StoreOk(store) && Provenance(store, mem)
    ensures Provenance(store, Announced(mem, u.tables))
    ensures StoreOk(StoreAfterUpdate(store, mem, u))
            && Provenance(StoreAfterUpdate(store, mem, u), MemoryAfterUpdate(store, mem, u))
  {
    var known := Announced(mem, u.tables);
    AnnouncedKeeps(mem, u.tables);
    forall id ensures ProvenanceOk(store, known, id) { assert ProvenanceOk(store, mem, id); }
    var cs := BatchChanges(store, known, u.programs);
    PutAllOk(store, WriteAll(store, known, cs), cs);
    UpsertKeepsProvenance(store, known, u.programs);
  }

  /** The store and memory after a run of updates, from a restart with nothing remembered. */
  function RunStore(store: Store, updates: seq<Update>): Store
    decreases |updates|, 0
  {
    if updates == [] then store
    else
      var n := |updates| - 1;
      StoreAfterUpdate(RunStore(store, updates[..n]), RunMemory(store, updates[..n]), updates[n])
  }

  function RunMemory(store: Store, updates: seq<Update>): Memory
    decreases |updates|, 1
  {
    if updates == [] then Memory(map[], map[], map[])
    else
      var n := |updates| - 1;
      MemoryAfterUpdate(RunStore(store, updates[..n]), RunMemory(store, updates[..n]), updates[n])
  }

  lemma {:induction false} RunKeepsProvenance(store: Store, updates: seq<Update>)
    requires StoreOk(store)
    ensures StoreOk(RunStore(store, updates)) && Provenance(RunStore(store, updates), RunMemory(store, updates))
  {
    if updates != [] {
      var n := |updates| - 1;
      RunKeepsProvenance(store, updates[..n]);
      UpdateKeepsProvenance(RunStore(store, updates[..n]), RunMemory(store, updates[..n]), updates[n]);
    }
  }

  /** In every run since a restart, an update that yields leaves the actual rows as they are. */
  lemma {:induction false} AuthorityInEveryRun(store: Store, updates: seq<Update>, u: Update, id: Id)
    requires StoreOk(store) && (forall i | 0 <= i < |u.programs| :: Yields(RunStore(store, updates), u.programs[i]))
    requires var st := RunStore(store, updates); id in st && Actual(st[id])
    ensures var st := RunStore(store, updates);
            var after := RunStore(store, updates + [u]);
            id in after && Faithful(st[id], after[id])
  {
    RunKeepsProvenance(store, updates);
    assert (updates + [u])[..|updates|] == updates;
    var st, mem := RunStore(store, updates), RunMemory(store, updates);
    UpdateKeepsProvenance(st, mem, u);
    YieldingNeverOverrides(st, Announced(mem, u.tables), u.programs, id);
  }

  // ----------------------------------------------------- what authority does not cover

  /** What a program without a basic revision does to the store on its own, and when it is blocked. */
  ghost predicate BlockedAlone(store: Store, mem: Memory, c: Change) {
    !Undisturbing(store, c.row) && IsBlocked(store, mem, map[c.row.id := c.row], c)
  }

  /** It spares an actual row: its own, which it neither moves nor renames, or another one, which its place does
      not overlap; or it takes no place at all. */
  ghost predicate Spares(store: Store, mem: Memory, p: Program, id: Id)
    requires id in store
  {
    var q := Decided(mem, BatchTables(mem, [p]), Row(store, p.id), p);
    q.Some? &&
    var c := Change(q.value, p.present);
    BlockedAlone(store, mem, c)
    || (if p.id == id then SameTime(store[id], p) && NameFits(store[id], p)
        else Undisturbing(store, c.row) || !Rival(store, map[p.id := c.row], c, id))
  }

  /** Every program without a basic revision leaves an actual row as it is exactly when it spares it. */
  lemma KeepsActualExactlyWhenSparing(store: Store, mem: Memory, p: Program, id: Id)
    requires StoreOk(store) && p.revision.None? && id in store && Actual(store[id])
    ensures var after := StoreAfter(store, mem, [p]);
            id in after && Faithful(store[id], after[id]) <==> Spares(store, mem, p, id)
  {
    var tables := BatchTables(mem, [p]);
    DecidedWithoutBasic(mem, tables, Row(store, p.id), p);
    OneProgram(store, mem, p);
    var c := Change(Decided(mem, tables, Row(store, p.id), p).value, p.present);
    if p.id in store { SameTimeFaithful(store[p.id], p, c.row); }
    if ChangeFor(store, mem, tables, p).None? {
      Unchanged(store, mem, c);
      assert Written(store, mem, []) == store - {} == store;
    } else if p.id == id {
      OneChangeToOwn(store, mem, c);
    } else {
      OneChangeToOther(store, mem, c, id);
    }
  }

  /** Without a change the row is as it was. */
  lemma Unchanged(store: Store, mem: Memory, c: Change)
    requires StoreOk(store) && c.row.id in store && Stored(c.row) == Stored(store[c.row.id])
    ensures Undisturbing(store, c.row) && Faithful(store[c.row.id], Stored(c.row))
  {
    StoredTimes(c.row);
  }

  lemma OneChangeToOwn(store: Store, mem: Memory, c: Change)
    requires StoreOk(store) && c.row.id in store
    ensures var id, after := c.row.id, Written(store, mem, [c]);
            id in after && Faithful(store[id], after[id])
            <==> BlockedAlone(store, mem, c) || Faithful(store[id], Stored(c.row))
  {
    OneChange(store, mem, c);
  }

  lemma OneChangeToOther(store: Store, mem: Memory, c: Change, id: Id)
    requires StoreOk(store) && id in store && id != c.row.id
    ensures var after := Written(store, mem, [c]);
            id in after && Faithful(store[id], after[id])
            <==> BlockedAlone(store, mem, c) || Undisturbing(store, c.row)
                 || !Rival(store, map[c.row.id := c.row], c, id)
  {
    OneChange(store, mem, c);
    assert map[][c.row.id := c.row] == map[c.row.id := c.row];
  }

  lemma OneProgram(store: Store, mem: Memory, p: Program)
    ensures BatchTables(mem, [p]) == NoteTable(NoteTable(map[], mem.tables, p, p.revision), mem.tables, p,
            p.extRevision)
    ensures var c := ChangeFor(store, mem, BatchTables(mem, [p]), p);
            BatchChanges(store, mem, [p]) == if c.Some? then [c.value] else []
  {
    var ps, ids := [p], [p.id];
    assert ps[..|ps| - 1] == [] && ids[..|ids| - 1] == [];
    assert Order([]) == [] && Pending([]) == map[];
    assert Order(ps) == ids && Pending(ps) == map[p.id := p];
    assert NewestTables(mem.tables, Pending(ps), []) == map[];
    assert p.id in Pending(ps) && Pending(ps)[p.id] == p;
    OneEntry(store, mem, BatchTables(mem, ps), p, Pending(ps));
  }

  lemma OneEntry(store: Store, mem: Memory, tables: Tables, p: Program, pending: map<Id, Program>)
    requires pending == map[p.id := p]
    ensures Changes(store, mem, tables, pending, [p.id])
         == var c := ChangeFor(store, mem, tables, p); if c.Some? then [c.value] else []
  {}

  lemma OneChange(store: Store, mem: Memory, c: Change)
    ensures var w := WriteOne(store, mem, Progress(map[], {}, {}), c);
            && WriteAll(store, mem, [c]) == w
            && Written(store, mem, [c]) == if Kept(w, c.row) then (store - w.removed)[c.row.id := Stored(c.row)]
                 else store - w.removed
  {
    var cs := [c];
    assert cs[..|cs| - 1] == [];
    assert PutAll(store, WriteAll(store, mem, cs), []) == store - WriteAll(store, mem, cs).removed;
  }

  function Extra(event: nat, start: int, name: string): Program {
    Program(Id(1, 1, event), 1, None, Some(Revision("other", 0x68, 1, 5)), false, false, Some(start), Some(100), name,
        "", [name])
  }

  function Broadcast(start: int): Program {
    Program(Id(1, 1, 1), 1, Some(Revision("", 0x50, 1, 0)), None, false, false, Some(start), Some(100), "x", "", [])
  }

  /** A row without a revision takes the place of the only row it overlaps. */
  lemma OnlyRivalGoes(store: Store, mem: Memory, c: Change, x: Program)
    requires store == map[x.id := x] && c.row.id != x.id && c.row.revision.None? && !Flagged(x) && Overlap(c.row, x)
    ensures x.id !in Written(store, mem, [c])
  {
    var written: Store := map[c.row.id := c.row];
    OneChange(store, mem, c);
    assert map[][c.row.id := c.row] == written;
    assert Rival(store, written, c, x.id) && x.id in store.Keys + written.Keys;
    assert !IsBlocked(store, mem, written, c);
  }

  /** A program known only from an extended other table deletes an actual row that it overlaps. */
  lemma ExtendedOnlyDeletes(mem: Memory)
    ensures exists store: Store, p: Program, id: Id ::
              && p.revision.None? && p.extRevision.Some? && Other(p.extRevision.value)
              && StoreOk(store) && id in store && Actual(store[id]) && id !in StoreAfter(store, mem, [p])
  {
    var x, y := Broadcast(100), Extra(2, 150, "y");
    var store := map[x.id := x];
    OneProgram(store, mem, y);
    DecidedWithoutBasic(mem, BatchTables(mem, [y]), None, y);
    OnlyRivalGoes(store, mem, ChangeFor(store, mem, BatchTables(mem, [y]), y).value, x);
    assert Actual(store[x.id]) && x.id !in StoreAfter(store, mem, [y]);
  }

  /** Under the id of an actual row it moves and renames that row. */
  lemma ExtendedOnlyOverwrites(mem: Memory)
    ensures exists store: Store, p: Program, id: Id ::
              && p.revision.None? && p.extRevision.Some? && Other(p.extRevision.value)
              && StoreOk(store) && id in store && Actual(store[id]) && store[id].name != ""
              && var after := StoreAfter(store, mem, [p]);
                 id in after && Start(after[id]) != Start(store[id]) && after[id].name != store[id].name
  {
    var x, y := Broadcast(100), Extra(1, 350, "y");
    var store := map[x.id := x];
    OneProgram(store, mem, y);
    DecidedWithoutBasic(mem, BatchTables(mem, [y]), Some(x), y);
    var c := ChangeFor(store, mem, BatchTables(mem, [y]), y).value;
    OneChange(store, mem, c);
    var written: Store := map[y.id := c.row];
    assert !IsBlocked(store, mem, written, c) && Rivals(store, written, c) == {};
    assert Actual(store[x.id]) && StoreAfter(store, mem, [y])[x.id] == Stored(c.row);
  }
}
