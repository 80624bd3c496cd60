/** The program manager's update as internal/program/manager.go and eit.go carry it out, loop by loop. */
module ProgramManager {
  import opened Basics
  import opened ProgramModel
  import opened ProgramWrite
  import opened ProgramUpsert
  import opened ProgramAuthority

  class Manager {
    var store: Store
    var eit: map<Id, Revision>
    var eitExtended: map<Id, Revision>
    var eitTables: Tables

    ghost function Mem(): Memory
      reads this
    {
      Memory(eit, eitExtended, eitTables)
    }

    /** A restart: the rows survive, what was remembered does not. */
    constructor (store: Store)
      ensures this.store == store && Mem() == Memory(map[], map[], map[])
    {
      this.store, eit, eitExtended, eitTables := store, map[], map[], map[];
    }

    /** A schedule snapshot announces its tables, then its programs are merged. */
    method UpsertSchedule(tables: seq<(Table, Revision)>, programs: seq<Program>)
      modifies this
      ensures store == StoreAfterUpdate(old(store), old(Mem()), Update(tables, programs))
      ensures Mem() == MemoryAfterUpdate(old(store), old(Mem()), Update(tables, programs))
    {
      for i := 0 to |tables|
        invariant store == old(store) && Mem() == Announced(old(Mem()), tables[..i])
      {
        var (key, r) := tables[i];
        assert tables[..i + 1][..i] == tables[..i];
        if key !in eitTables || r.reception > eitTables[key].reception { eitTables := eitTables[key := r]; }
      }
      assert tables[..|tables|] == tables;
      UpsertPrograms(programs);
    }

    method UpsertPrograms(programs: seq<Program>)
      modifies this
      ensures store == StoreAfter(old(store), old(Mem()), programs)
      ensures Mem() == MemoryAfter(old(store), old(Mem()), programs)
    {
      var ids, pending := Collect(programs);
      var tables := FindTables(pending, ids);
      var changes, accepted := Decide(pending, ids, tables);
      var w := WriteChanges(changes);
      Record(pending, ids, tables, accepted, w);
      Put(w, changes);
    }

    static method Collect(programs: seq<Program>) returns (ids: seq<Id>, pending: map<Id, Program>)
      ensures ids == Order(programs) && pending == Pending(programs)
    {
      ids, pending := [], map[];
      for i := 0 to |programs|
        invariant ids == Order(programs[..i]) && pending == Pending(programs[..i])
      {
        var p := programs[i];
        assert programs[..i + 1][..i] == programs[..i];
        PendingIds(programs[..i], p.id);
        if p.id !in pending { ids := ids + [p.id]; }
        pending := pending[p.id := if p.id in pending then PreferPending(pending[p.id], p) else p];
      }
      assert programs[..|programs|] == programs;
    }

    method FindTables(pending: map<Id, Program>, ids: seq<Id>) returns (tables: Tables)
      ensures tables == NewestTables(eitTables, pending, ids)
    {
      tables := map[];
      for i := 0 to |ids|
        invariant tables == NewestTables(eitTables, pending, ids[..i])
      {
        assert ids[..i + 1][..i] == ids[..i];
        if ids[i] in pending {
          var p := pending[ids[i]];
          tables := NoteTable(tables, eitTables, p, p.revision);
          tables := NoteTable(tables, eitTables, p, p.extRevision);
        }
      }
      assert ids[..|ids|] == ids;
    }

    /** The rows to write, and those whose revisions are to be remembered. */
    method Decide(pending: map<Id, Program>, ids: seq<Id>, tables: Tables) returns (changes: seq<Change>,
                  accepted: map<Id, Program>)
      ensures changes == Changes(store, Mem(), tables, pending, ids)
      ensures forall id | id in ids :: AcceptedOk(store, Mem(), tables, pending, accepted, id)
    {
      changes, accepted := [], map[];
      for i := 0 to |ids|
        invariant changes == Changes(store, Mem(), tables, pending, ids[..i])
        invariant forall id | id in ids[..i] :: AcceptedOk(store, Mem(), tables, pending, accepted, id)
        invariant forall id | id in accepted :: id in ids[..i]
      {
        assert ids[..i + 1] == ids[..i] + [ids[i]] && ids[..i + 1][..i] == ids[..i];
        if ids[i] in pending {
          var p := pending[ids[i]];
          var row := AcceptedRow(store, Memory(eit, eitExtended, eitTables), tables, p);
          if row.Some? { accepted := accepted[ids[i] := row.value]; }
          var c := ChangeFor(store, Memory(eit, eitExtended, eitTables), tables, p);
          if c.Some? { changes := changes + [c.value]; }
        }
      }
      assert ids[..|ids|] == ids;
    }

    method WriteChanges(changes: seq<Change>) returns (w: Progress)
      ensures w == WriteAll(store, Mem(), changes)
    {
      w := Progress(map[], {}, {});
      for i := 0 to |changes|
        invariant w == WriteAll(store, Mem(), changes[..i])
      {
        assert changes[..i + 1][..i] == changes[..i];
        w := WriteChange(w, changes[i]);
      }
      assert changes[..|changes|] == changes;
    }

    method WriteChange(w: Progress, c: Change) returns (next: Progress)
      ensures next == WriteOne(store, Mem(), w, c)
    {
      var id := c.row.id;
      var written, removed := w.written[id := c.row], w.removed - {id};
      if id in store && SameTime(store[id], c.row) { return Progress(written, removed, w.blocked); }
      if !Timed(c.row) { return Progress(written, removed, w.blocked); }
      var overlaps, blocked := FindRivals(written, c);
      if blocked {
        written := if id in store then written[id := store[id]] else written - {id};
        return Progress(written, removed, w.blocked + {id});
      }
      return Progress(written, removed + overlaps, w.blocked);
    }

    /** Looks through the latest rows for overlaps, and gives up at one that blocks. */
    method FindRivals(written: Store, c: Change) returns (overlaps: set<Id>, blocked: bool)
      ensures blocked == IsBlocked(store, Mem(), written, c)
      ensures !blocked ==> overlaps == Rivals(store, written, c)
    {
      overlaps, blocked := {}, false;
      var todo := store.Keys + written.Keys;
      while todo != {}
        invariant todo <= store.Keys + written.Keys
        invariant forall id | id in store.Keys + written.Keys && id !in todo ::
                    !BlockedBy(store, Mem(), written, c, id) && (id in overlaps <==> Rival(store, written, c, id))
        invariant overlaps <= store.Keys + written.Keys - todo
        decreases todo
      {
        var id :| id in todo;
        todo := todo - {id};
        if Rival(store, written, c, id) {
          if Blocks(Memory(eit, eitExtended, eitTables), c.row, Latest(store, written, c.row, id).value) {
            assert BlockedBy(store, Mem(), written, c, id);
            blocked := true;
            return;
          }
          overlaps := overlaps + {id};
        }
      }
    }

    method Put(w: Progress, changes: seq<Change>)
      modifies this`store
      ensures store == PutAll(old(store), w, changes)
    {
      store := store - w.removed;
      for i := 0 to |changes|
        invariant store == PutAll(old(store), w, changes[..i])
      {
        assert changes[..i + 1][..i] == changes[..i];
        if Kept(w, changes[i].row) { store := store[changes[i].row.id := Stored(changes[i].row)]; }
      }
      assert changes[..|changes|] == changes;
    }

    method Record(pending: map<Id, Program>, ids: seq<Id>, tables: Tables, accepted: map<Id, Program>, w: Progress)
      requires forall id | id in ids :: AcceptedOk(store, Mem(), tables, pending, accepted, id)
      modifies this`eit, this`eitExtended, this`eitTables
      ensures Mem() == RecordAll(store, old(Mem()), tables, pending, ids, w)
    {
      for i := 0 to |ids|
        invariant Mem() == RecordAll(store, old(Mem()), tables, pending, ids[..i], w)
      {
        assert ids[..i + 1][..i] == ids[..i];
        assert ids[i] in ids && AcceptedOk(store, old(Mem()), tables, pending, accepted, ids[i]);
        if ids[i] in accepted && ids[i] !in w.removed && ids[i] !in w.blocked {
          RecordRow(accepted[ids[i]]);
        }
      }
      assert ids[..|ids|] == ids;
    }

    method RecordRow(p: Program)
      modifies this`eit, this`eitExtended, this`eitTables
      ensures Mem() == RecordExtended(RecordBasic(old(Mem()), p), p)
    {
      if p.revision.Some? && !Superseded(eit, p.id, p.revision.value) {
        eit := eit[p.id := p.revision.value];
        eitTables := NoteNewest(eitTables, TableOf(p, p.revision.value), p.revision.value);
      }
      if p.extRevision.Some? && !Superseded(eitExtended, p.id, p.extRevision.value) {
        eitExtended := eitExtended[p.id := p.extRevision.value];
        eitTables := NoteNewest(eitTables, TableOf(p, p.extRevision.value), p.extRevision.value);
      }
    }
  }

  ghost predicate AcceptedOk(store: Store, mem: Memory, tables: Tables, pending: map<Id, Program>, accepted: map<Id,
                             Program>, id: Id)
  {
    (if id in accepted then Some(accepted[id]) else None)
    == if id in pending then AcceptedRow(store, mem, tables, pending[id]) else None
  }
}
