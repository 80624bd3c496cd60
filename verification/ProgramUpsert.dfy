/**
 A whole schedule update (internal/program/manager.go, eit.go): tables of other transport
 streams never override what the actual tables said.
 */
module ProgramUpsert {
  import opened Basics
  import opened ProgramModel
  import opened ProgramWrite

  // ------------------------------------------------------------------- the batch

  /** The ids of a batch in order of appearance. */
  function Order(ps: seq<Program>): seq<Id> {
    if ps == [] then []
    else
      var before, id := Order(ps[..|ps| - 1]), ps[|ps| - 1].id;
      if id in before then before else before + [id]
  }

  /** One program per id. */
  function Pending(ps: seq<Program>): map<Id, Program> {
    if ps == [] then map[]
    else
      var before, p := Pending(ps[..|ps| - 1]), ps[|ps| - 1];
      before[p.id := if p.id in before then PreferPending(before[p.id], p) else p]
  }

  /** The newest revision of each table, known or in the batch. */
  function NoteTable(tables: Tables, known: Tables, p: Program, r: Option<Revision>): Tables {
    if r.None? then tables
    else
      var key := TableOf(p, r.value);
      var previous := if key in tables then Some(tables[key]) else if key in known then Some(known[key]) else None;
      tables[key := if previous.Some? && r.value.reception <= previous.value.reception then previous.value else r.value]
  }

  function NewestTables(known: Tables, pending: map<Id, Program>, ids: seq<Id>): Tables {
    if ids == [] then map[]
    else
      var before, id := NewestTables(known, pending, ids[..|ids| - 1]), ids[|ids| - 1];
      if id !in pending then before
      else NoteTable(NoteTable(before, known, pending[id], pending[id].revision), known, pending[id],
          pending[id].extRevision)
  }

  /** The change for one id: None if there is nothing to write. */
  function ChangeFor(store: Store, mem: Memory, tables: Tables, p: Program): Option<Change> {
    var after := Decided(mem, tables, Row(store, p.id), p);
    if after.None? || (p.id in store && Stored(after.value) == Stored(store[p.id])) then None
    else Some(Change(after.value, p.present))
  }

  function Changes(store: Store, mem: Memory, tables: Tables, pending: map<Id, Program>, ids: seq<Id>): seq<Change> {
    if ids == [] then []
    else
      var before, id := Changes(store, mem, tables, pending, ids[..|ids| - 1]), ids[|ids| - 1];
      if id !in pending then before
      else
        var c := ChangeFor(store, mem, tables, pending[id]);
        if c.None? then before else before + [c.value]
  }

  /** The row remembered for one id. */
  function AcceptedRow(store: Store, mem: Memory, tables: Tables, p: Program): Option<Program> {
    if Accepted(mem, tables, Row(store, p.id), p) then Decided(mem, tables, Row(store, p.id), p) else None
  }

  // ------------------------------------------------------------------- remembering

  /** An older revision of the same standing does not replace a newer one. */
  predicate Superseded(known: map<Id, Revision>, id: Id, r: Revision) {
    id in known && PreferTo(known[id], r) && known[id].reception > r.reception
  }

  function NoteNewest(tables: Tables, key: Table, r: Revision): Tables {
    if key !in tables || r.reception > tables[key].reception then tables[key := r] else tables
  }

  function RecordBasic(mem: Memory, p: Program): Memory {
    if p.revision.None? || Superseded(mem.basic, p.id, p.revision.value) then mem
    else mem.(basic := mem.basic[p.id := p.revision.value],
        tables := NoteNewest(mem.tables, TableOf(p, p.revision.value), p.revision.value))
  }

  function RecordExtended(mem: Memory, p: Program): Memory {
    if p.extRevision.None? || Superseded(mem.extended, p.id, p.extRevision.value) then mem
    else mem.(extended := mem.extended[p.id := p.extRevision.value],
              tables := NoteNewest(mem.tables, TableOf(p, p.extRevision.value), p.extRevision.value))
  }

  /** Remembering the accepted rows that were neither removed nor blocked. */
  function RecordAll(store: Store, mem: Memory, tables: Tables, pending: map<Id, Program>, ids: seq<Id>,
                     w: Progress): Memory
  {
    if ids == [] then mem
    else
      var before, id := RecordAll(store, mem, tables, pending, ids[..|ids| - 1], w), ids[|ids| - 1];
      if id !in pending || id in w.removed || id in w.blocked then before
      else
        var row := AcceptedRow(store, mem, tables, pending[id]);
        if row.None? then before else RecordExtended(RecordBasic(before, row.value), row.value)
  }

  // --------------------------------------------------------------------- an upsert

  function BatchTables(mem: Memory, ps: seq<Program>): Tables { NewestTables(mem.tables, Pending(ps), Order(ps)) }

  function BatchChanges(store: Store, mem: Memory, ps: seq<Program>): seq<Change> {
    Changes(store, mem, BatchTables(mem, ps), Pending(ps), Order(ps))
  }

  function StoreAfter(store: Store, mem: Memory, ps: seq<Program>): Store {
    Written(store, mem, BatchChanges(store, mem, ps))
  }

  function MemoryAfter(store: Store, mem: Memory, ps: seq<Program>): Memory {
    RecordAll(store, mem, BatchTables(mem, ps), Pending(ps), Order(ps),
        WriteAll(store, mem, BatchChanges(store, mem, ps)))
  }

  // ------------------------------------------------------------- facts about batches

  lemma {:induction false} PendingIds(ps: seq<Program>, id: Id)
    ensures id in Pending(ps) <==> id in Order(ps)
    ensures id in Pending(ps) ==> Pending(ps)[id].id == id
  {
    if ps != [] { PendingIds(ps[..|ps| - 1], id); }
  }

  lemma {:induction false} OrderDistinct(ps: seq<Program>)
    ensures forall i, j | 0 <= i < j < |Order(ps)| :: Order(ps)[i] != Order(ps)[j]
  {
    if ps != [] { OrderDistinct(ps[..|ps| - 1]); }
  }

  /** The changes are those of the pending programs, one per id. */
  ghost predicate ChangeOk(store: Store, mem: Memory, tables: Tables, pending: map<Id, Program>, ids: seq<Id>,
                           cs: seq<Change>, j: int)
  {
    0 <= j < |cs| ==>
      var id := cs[j].row.id;
      id in ids && id in pending && pending[id].id == id && ChangeFor(store, mem, tables, pending[id]) == Some(cs[j])
  }

  lemma DecidedId(mem: Memory, tables: Tables, existing: Option<Program>, p: Program)
    requires existing.Some? ==> existing.value.id == p.id
    ensures Decided(mem, tables, existing, p).Some? ==> Decided(mem, tables, existing, p).value.id == p.id
  {}

  lemma {:induction false} ChangesOk(store: Store, mem: Memory, tables: Tables, pending: map<Id, Program>, ids: seq<Id>)
    requires StoreOk(store) && (forall id | id in pending :: pending[id].id == id)
    requires forall i, j | 0 <= i < j < |ids| :: ids[i] != ids[j]
    ensures DistinctIds(Changes(store, mem, tables, pending, ids))
    ensures forall j :: ChangeOk(store, mem, tables, pending, ids, Changes(store, mem, tables, pending, ids), j)
    ensures forall id | id in ids && id in pending && ChangeFor(store, mem, tables, pending[id]).Some? ::
              Wrote(Changes(store, mem, tables, pending, ids), id)
  {
    var cs := Changes(store, mem, tables, pending, ids);
    if ids != [] {
      var n := |ids| - 1;
      var before, id := Changes(store, mem, tables, pending, ids[..n]), ids[n];
      ChangesOk(store, mem, tables, pending, ids[..n]);
      assert ids == ids[..n] + [id];
      forall j | 0 <= j < |before| ensures before[j].row.id != id {
        assert ChangeOk(store, mem, tables, pending, ids[..n], before, j);
      }
      if id in pending {
        DecidedId(mem, tables, Row(store, id), pending[id]);
        var c := ChangeFor(store, mem, tables, pending[id]);
        if c.Some? { assert cs == before + [c.value]; WroteMoreAll(before, c.value); }
      }
      forall j ensures ChangeOk(store, mem, tables, pending, ids, cs, j) {
        assert ChangeOk(store, mem, tables, pending, ids[..n], before, j);
      }
    }
  }

  lemma WroteMoreAll(cs: seq<Change>, c: Change)
    ensures forall id :: Wrote(cs + [c], id) <==> Wrote(cs, id) || c.row.id == id
  {
    forall id ensures Wrote(cs + [c], id) <==> Wrote(cs, id) || c.row.id == id { WroteMore(cs, c, id); }
  }

  // ------------------------------------------------------------- keeping provenance

  predicate Actual(p: Program) { p.revision.Some? && !Other(p.revision.value) }

  /** What is remembered of an actual row's revision is not an other one. */
  ghost predicate ProvenanceOk(store: Store, mem: Memory, id: Id) {
    id in store && Actual(store[id]) && id in mem.basic ==> !Other(mem.basic[id])
  }

  ghost predicate Provenance(store: Store, mem: Memory) { forall id :: ProvenanceOk(store, mem, id) }

  function Lookup(known: map<Id, Revision>, id: Id): Option<Revision> { if id in known then Some(known[id]) else None }

  /** What recording one accepted row does to the memory of its id. */
  function Remembered(known: Option<Revision>, row: Option<Program>): Option<Revision> {
    if row.None? || row.value.revision.None? then known
    else
      var r := row.value.revision.value;
      if known.Some? && PreferTo(known.value, r) && known.value.reception > r.reception then known else Some(r)
  }

  lemma RecordOne(mem: Memory, row: Program, id: Id)
    ensures Lookup(RecordExtended(RecordBasic(mem, row), row).basic, id)
         == if row.id == id then Remembered(Lookup(mem.basic, id), Some(row)) else Lookup(mem.basic, id)
  {}

  /** Which ids are recorded. */
  predicate Noted(pending: map<Id, Program>, ids: seq<Id>, w: Progress, id: Id) {
    id in ids && id in pending && id !in w.removed && id !in w.blocked
  }

  lemma {:induction false} RecordAllBasic(store: Store, mem: Memory, tables: Tables, pending: map<Id, Program>,
                                          ids: seq<Id>, w: Progress, id: Id)
    requires StoreOk(store) && (forall x | x in pending :: pending[x].id == x)
    requires forall i, j | 0 <= i < j < |ids| :: ids[i] != ids[j]
    ensures Lookup(RecordAll(store, mem, tables, pending, ids, w).basic, id)
         == if Noted(pending, ids, w, id) then Remembered(Lookup(mem.basic, id),
             AcceptedRow(store, mem, tables, pending[id]))
            else Lookup(mem.basic, id)
  {
    if ids != [] {
      var n := |ids| - 1;
      var before, last := RecordAll(store, mem, tables, pending, ids[..n], w), ids[n];
      RecordAllBasic(store, mem, tables, pending, ids[..n], w, id);
      assert ids == ids[..n] + [last];
      assert last !in ids[..n];
      if Noted(pending, ids, w, last) {
        var row := AcceptedRow(store, mem, tables, pending[last]);
        DecidedId(mem, tables, Row(store, last), pending[last]);
        if row.Some? { RecordOne(before, row.value, id); }
      }
    }
  }

  lemma StoredActual(p: Program)
    ensures Actual(Stored(p)) <==> Actual(p)
  {}

  /** Remembering an actual row's own revision never brings back an other one. */
  lemma RememberedActual(store: Store, mem: Memory, tables: Tables, p: Program, q: Program)
    requires ProvenanceOk(store, mem, p.id) && Decided(mem, tables, Row(store, p.id), p) == Some(q) && Actual(q)
    ensures var r := Remembered(Lookup(mem.basic, p.id), AcceptedRow(store, mem, tables, p));
            r.Some? ==> !Other(r.value)
  {}

  /** The row of one id after an upsert. */
  lemma RowAfter(store: Store, mem: Memory, ps: seq<Program>, id: Id)
    requires StoreOk(store)
    ensures var cs := BatchChanges(store, mem, ps);
            var w := WriteAll(store, mem, cs);
            var after := StoreAfter(store, mem, ps);
            if id in Pending(ps) && ChangeFor(store, mem, BatchTables(mem, ps),
                Pending(ps)[id]).Some? && id !in w.removed && id !in w.blocked
            then Row(after, id) == Some(Stored(ChangeFor(store, mem, BatchTables(mem, ps), Pending(ps)[id]).value.row))
            else Row(after, id) == (if id in w.removed then None else Row(store, id))
  {
    var tables, pending, ids, cs := BatchTables(mem, ps), Pending(ps), Order(ps), BatchChanges(store, mem, ps);
    var w := WriteAll(store, mem, cs);
    BatchOk(ps);
    ChangesOk(store, mem, tables, pending, ids);
    PutAllRows(store, w, cs, id);
    forall j | WroteAt(cs, j, id) ensures id in pending && ChangeFor(store, mem, tables, pending[id]) == Some(cs[j]) {
      assert ChangeOk(store, mem, tables, pending, ids, cs, j);
    }
    PendingIds(ps, id);
  }

  lemma {:induction false} BatchOk(ps: seq<Program>)
    ensures forall id | id in Pending(ps) :: Pending(ps)[id].id == id
    ensures forall i, j | 0 <= i < j < |Order(ps)| :: Order(ps)[i] != Order(ps)[j]
  {
    OrderDistinct(ps);
    forall id | id in Pending(ps) ensures Pending(ps)[id].id == id { PendingIds(ps, id); }
  }

  /** Every upsert keeps provenance. */
  lemma UpsertKeepsProvenance(store: Store, mem: Memory, ps: seq<Program>)
    requires StoreOk(store) && Provenance(store, mem)
    ensures Provenance(StoreAfter(store, mem, ps), MemoryAfter(store, mem, ps))
  {
    forall id ensures ProvenanceOk(StoreAfter(store, mem, ps), MemoryAfter(store, mem, ps), id) {
      OneKeepsProvenance(store, mem, ps, id);
    }
  }

  lemma OneKeepsProvenance(store: Store, mem: Memory, ps: seq<Program>, id: Id)
    requires StoreOk(store) && Provenance(store, mem)
    ensures ProvenanceOk(StoreAfter(store, mem, ps), MemoryAfter(store, mem, ps), id)
  {
    var after, mem' := StoreAfter(store, mem, ps), MemoryAfter(store, mem, ps);
    BatchOk(ps);
    PendingIds(ps, id);
    RowAfter(store, mem, ps, id);
    RecordAllBasic(store, mem, BatchTables(mem, ps), Pending(ps), Order(ps),
        WriteAll(store, mem, BatchChanges(store, mem, ps)), id);
    if id in after && Actual(after[id]) && id in mem'.basic {
      assert Lookup(mem'.basic, id) == Some(mem'.basic[id]);
      AfterActual(store, mem, BatchTables(mem, ps), Pending(ps), id, after[id]);
    }
  }

  /** An actual row after an upsert, written or not, leaves the right memory. */
  lemma AfterActual(store: Store, mem: Memory, tables: Tables, pending: map<Id, Program>, id: Id, row: Program)
    requires StoreOk(store) && Provenance(store, mem) && Actual(row) && (id in pending ==> pending[id].id == id)
    requires Row(store, id) == Some(row)
             || (id in pending && var c := ChangeFor(store, mem, tables,
                  pending[id]); c.Some? && row == Stored(c.value.row))
    ensures id in mem.basic && Row(store, id) == Some(row) ==> !Other(mem.basic[id])
    ensures id in pending && (Row(store, id) == Some(row) ==> ChangeFor(store, mem, tables, pending[id]).None?) ==>
              var r := Remembered(Lookup(mem.basic, id), AcceptedRow(store, mem, tables, pending[id]));
              r.Some? ==> !Other(r.value)
  {
    assert ProvenanceOk(store, mem, id);
    if id in pending {
      var q := Decided(mem, tables, Row(store, id), pending[id]);
      if q.Some? {
        StoredActual(q.value);
        StoredActual(row);
        if Actual(q.value) { RememberedActual(store, mem, tables, pending[id], q.value); }
      }
    }
  }
}
