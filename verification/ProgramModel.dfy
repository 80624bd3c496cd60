/**
 Storing broadcast programs (internal/program): which of two revisions of an event table
 is authoritative, and how an incoming program is merged with the stored one.
 */
module ProgramModel {
  import opened Basics

  /** Programs are identified by network, service and event. */
  datatype Id = Id(network: nat, service: nat, event: nat)

  /** The event information subtable that supplied a program. */
  datatype Revision = Revision(source: string, table: nat, version: nat, reception: nat)

  predicate Other(r: Revision) { 0x60 <= r.table <= 0x6f }

  /** Actual tables are authoritative over other ones; receptions are compared within one source. */
  predicate PreferTo(r: Revision, previous: Revision) {
    if Other(r) != Other(previous) then !Other(r)
    else if Other(r) && r.source != previous.source then false
    else r.reception >= previous.reception
  }

  datatype Program = Program(
    id: Id,
    stream: nat,
    revision: Option<Revision>,
    extRevision: Option<Revision>,
    present: bool,
    following: bool,
    start: Option<int>,
    duration: Option<int>,
    name: string,
    description: string,
    extended: seq<string>)

  type Store = map<Id, Program>

  function Start(p: Program): int { if p.start.Some? then p.start.value else 0 }

  function Duration(p: Program): int { if p.duration.Some? then p.duration.value else 0 }

  predicate Flagged(p: Program) { p.present || p.following }

  /** A row as it is read back: undecided times are zero, receptions are not stored. */
  function Stored(p: Program): Program {
    p.(start := if Start(p) == 0 then None else p.start,
       duration := if Duration(p) == 0 then None else p.duration,
       revision := Forget(p.revision), extRevision := Forget(p.extRevision))
  }

  function Forget(r: Option<Revision>): Option<Revision> {
    if r.Some? then Some(r.value.(reception := 0)) else None
  }

  /** The rows of a store are as they are read back, under their own ids. */
  ghost predicate StoreOk(store: Store) {
    forall id | id in store :: store[id].id == id && Stored(store[id]) == store[id]
  }

  // --------------------------------------------------------------------- merging

  function Filled(r: Option<Revision>, from: Option<Revision>): Option<Revision> { if r.None? then from else r }

  /** What `incoming` lacks, taken from `existing`. */
  function Merge(existing: Option<Program>, incoming: Program): Program {
    if existing.None? then incoming
    else
      var e := existing.value;
      incoming.(
        extRevision := Filled(incoming.extRevision, e.extRevision),
        revision := Filled(incoming.revision, e.revision),
        present := if Flagged(incoming) then incoming.present else e.present,
        following := if Flagged(incoming) then incoming.following else e.following,
        name := if incoming.name == "" then e.name else incoming.name,
        description := if incoming.description == "" then e.description else incoming.description,
        extended := if incoming.extended == [] then e.extended else incoming.extended)
  }

  /** Two programs of one batch with the same id. */
  function PreferPending(previous: Program, incoming: Program): Program {
    var preferred :=
      if previous.revision.Some? && incoming.revision.Some? && !PreferTo(incoming.revision.value,
          previous.revision.value)
      then previous else incoming;
    var ext :=
      if previous.extRevision.Some? && (incoming.extRevision.None?
          || !PreferTo(incoming.extRevision.value, previous.extRevision.value))
      then previous else incoming;
    if ext.extRevision.Some? then preferred.(extended := ext.extended, extRevision := ext.extRevision) else preferred
  }

  // ------------------------------------------------------------------- provenance

  datatype Table = Table(network: nat, stream: nat, service: nat, source: string, table: nat)

  function TableOf(p: Program, r: Revision): Table {
    Table(p.id.network, p.stream, p.id.service, if Other(r) then r.source else "", r.table)
  }

  type Tables = map<Table, Revision>

  /** What the manager remembers about the revisions it has accepted. */
  datatype Memory = Memory(basic: map<Id, Revision>, extended: map<Id, Revision>, tables: Tables)

  predicate AcceptBasic(mem: Memory, tables: Tables, existing: Option<Program>, p: Program) {
    if p.revision.None? then true
    else
      var r := p.revision.value;
      if TableOf(p, r) in tables && !PreferTo(r, tables[TableOf(p, r)]) then false
      else if p.id in mem.basic then PreferTo(r, mem.basic[p.id])
      else if existing.None? then true
      else if existing.value.revision.Some? then PreferTo(r, existing.value.revision.value)
      else !Other(r)
  }

  predicate AcceptExtended(mem: Memory, tables: Tables, existing: Option<Program>, p: Program)
    requires p.extRevision.Some?
  {
    var r := p.extRevision.value;
    if TableOf(p, r) in tables && !PreferTo(r, tables[TableOf(p, r)]) then false
    else if p.id in mem.extended then PreferTo(r, mem.extended[p.id])
    else if existing.None? then true
    else if existing.value.extRevision.Some? then PreferTo(r, existing.value.extRevision.value)
    else !(existing.value.extended != [] && Other(r))
  }

  /** The program after its basic part: None if a rejected program has no stored row. */
  function MergeBasic(mem: Memory, tables: Tables, existing: Option<Program>, p: Program): Option<Program> {
    if AcceptBasic(mem, tables, existing, p) then
      if p.revision.Some? && existing.Some? && Flagged(existing.value) then Some(Merge(Some(p), existing.value))
      else Some(Merge(existing, p))
    else if existing.None? then None
    else Some(Merge(Some(p), existing.value).(revision := existing.value.revision,
        extRevision := existing.value.extRevision))
  }

  function MergeExtended(mem: Memory, tables: Tables, existing: Option<Program>, p: Program, after: Program): Program {
    if p.extRevision.None? then after
    else if AcceptExtended(mem, tables, existing, p) then after.(extended := p.extended, extRevision := p.extRevision)
    else if existing.Some? then after.(extended := existing.value.extended, extRevision := existing.value.extRevision)
    else after.(extended := [], extRevision := None)
  }

  /** The row to write for `p`, if any. */
  function Decided(mem: Memory, tables: Tables, existing: Option<Program>, p: Program): Option<Program> {
    var basic := MergeBasic(mem, tables, existing, p);
    if basic.None? then None else Some(MergeExtended(mem, tables, existing, p, basic.value))
  }

  /** Whether its revisions are remembered. */
  predicate Accepted(mem: Memory, tables: Tables, existing: Option<Program>, p: Program) {
    AcceptBasic(mem, tables, existing, p)
    || (existing.Some? && p.extRevision.Some? && AcceptExtended(mem, tables, existing, p))
  }

  function Row(store: Store, id: Id): Option<Program> { if id in store then Some(store[id]) else None }
}
