/**
 The rest of a program's row: other tables against each other, the extended part, rows on air,
 and what is remembered of the tables, all told by comparing kinds, sources and receptions.
 */
module ProgramFields {
  import opened Basics
  import opened ProgramModel
  import opened ProgramWrite
  import opened ProgramUpsert
  import opened ProgramAuthority
  import opened ProgramNewer

  /** An actual revision outdates other ones and actual ones not received later; an other one only those of its own
      source. */
  predicate Outdates(r: Revision, previous: Revision) {
    if Other(previous) then !Other(r) || (r.source == previous.source && previous.reception <= r.reception)
    else !Other(r) && previous.reception <= r.reception
  }

  ghost predicate SourcesOk(tables: Tables) {
    forall key | key in tables :: tables[key].table == key.table
                                  && (Other(tables[key]) ==> tables[key].source == key.source)
  }

  lemma NoteSources(tables: Tables, known: Tables, p: Program, r: Option<Revision>)
    requires SourcesOk(tables) && SourcesOk(known)
    ensures SourcesOk(NoteTable(tables, known, p, r))
  {}

  lemma {:induction false} NewestSources(known: Tables, pending: map<Id, Program>, ids: seq<Id>)
    requires SourcesOk(known)
    ensures SourcesOk(NewestTables(known, pending, ids))
  {
    if ids != [] {
      var before, last := NewestTables(known, pending, ids[..|ids| - 1]), ids[|ids| - 1];
      NewestSources(known, pending, ids[..|ids| - 1]);
      if last in pending {
        NoteSources(before, known, pending[last], pending[last].revision);
        NoteSources(NoteTable(before, known, pending[last], pending[last].revision), known, pending[last],
                    pending[last].extRevision);
      }
    }
  }

  /** Nothing received later is known of a table or comes in the batch. */
  ghost predicate TableFresh(mem: Memory, ps: seq<Program>, key: Table, x: nat) {
    UpTo(mem.tables, key, x) && forall id | id in Pending(ps) :: BothUpTo(Pending(ps)[id], key, x)
  }

  /** The table a revision is of does not hold it back exactly if nothing later is known of that table. */
  lemma TableAgrees(mem: Memory, ps: seq<Program>, id: Id, r: Revision)
    requires SourcesOk(mem.tables) && id in Pending(ps)
    requires Pending(ps)[id].revision == Some(r) || Pending(ps)[id].extRevision == Some(r)
    ensures var key := TableOf(Pending(ps)[id], r);
            key in BatchTables(mem, ps)
            && (PreferTo(r, BatchTables(mem, ps)[key]) <==> TableFresh(mem, ps, key, r.reception))
  {
    BatchUpTo(mem, ps, id, TableOf(Pending(ps)[id], r), r.reception);
    NewestSources(mem.tables, Pending(ps), Order(ps));
  }

  /** What is remembered of an id, or else stored, is outdated by a revision. */
  ghost predicate Beats(r: Revision, known: Option<Revision>, stored: Option<Revision>, taken: bool) {
    if known.Some? then Outdates(r, known.value)
    else if stored.Some? then Outdates(r, stored.value)
    else taken ==> !Other(r)
  }

  lemma AcceptsByOutdating(mem: Memory, tables: Tables, existing: Option<Program>, p: Program, latest: bool)
    requires p.revision.Some? && TableOf(p, p.revision.value) in tables
    requires latest <==> PreferTo(p.revision.value, tables[TableOf(p, p.revision.value)])
    ensures AcceptBasic(mem, tables, existing, p)
            <==> latest && Beats(p.revision.value, Lookup(mem.basic, p.id),
                                if existing.Some? then existing.value.revision else None, existing.Some?)
  {}

  lemma AcceptsExtendedByOutdating(mem: Memory, tables: Tables, existing: Option<Program>, p: Program, latest: bool)
    requires p.extRevision.Some? && TableOf(p, p.extRevision.value) in tables
    requires latest <==> PreferTo(p.extRevision.value, tables[TableOf(p, p.extRevision.value)])
    ensures AcceptExtended(mem, tables, existing, p)
            <==> latest && Beats(p.extRevision.value, Lookup(mem.extended, p.id),
                                if existing.Some? then existing.value.extRevision else None,
                                existing.Some? && existing.value.extended != [])
  {}

  /** A program is accepted exactly if nothing later is known of its table and it outdates what is remembered of its
      id, or what is stored if nothing is; over a row without a revision only an actual one is. */
  lemma AcceptedExactly(store: Store, mem: Memory, ps: seq<Program>, id: Id)
    requires SourcesOk(mem.tables) && id in Pending(ps) && Pending(ps)[id].revision.Some?
    ensures var p := Pending(ps)[id];
            var r, row := p.revision.value, Row(store, id);
            AcceptBasic(mem, BatchTables(mem, ps), row, p)
            <==> TableFresh(mem, ps, TableOf(p, r), r.reception)
                 && Beats(r, Lookup(mem.basic, id), if row.Some? then row.value.revision else None, row.Some?)
  {
    var p := Pending(ps)[id];
    PendingIds(ps, id);
    TableAgrees(mem, ps, id, p.revision.value);
    AcceptsByOutdating(mem, BatchTables(mem, ps), Row(store, id), p,
                       TableFresh(mem, ps, TableOf(p, p.revision.value), p.revision.value.reception));
  }

  /** The same of the extended part, where a row holds back an other revision if it has an extended part. */
  lemma ExtendedAcceptedExactly(store: Store, mem: Memory, ps: seq<Program>, id: Id)
    requires SourcesOk(mem.tables) && id in Pending(ps) && Pending(ps)[id].extRevision.Some?
    ensures var p := Pending(ps)[id];
            AcceptExtended(mem, BatchTables(mem, ps), Row(store, id), p) <==> ExtendedFresh(store, mem, ps, id)
  {
    var p := Pending(ps)[id];
    PendingIds(ps, id);
    TableAgrees(mem, ps, id, p.extRevision.value);
    AcceptsExtendedByOutdating(mem, BatchTables(mem, ps), Row(store, id), p,
                               TableFresh(mem, ps, TableOf(p, p.extRevision.value), p.extRevision.value.reception));
  }

  ghost predicate ExtendedFresh(store: Store, mem: Memory, ps: seq<Program>, id: Id)
    requires id in Pending(ps) && Pending(ps)[id].extRevision.Some?
  {
    var p, row := Pending(ps)[id], Row(store, id);
    var r := p.extRevision.value;
    && TableFresh(mem, ps, TableOf(p, r), r.reception)
    && Beats(r, Lookup(mem.extended, id), if row.Some? then row.value.extRevision else None,
             row.Some? && row.value.extended != [])
  }

  lemma DecidedExtended(mem: Memory, tables: Tables, existing: Option<Program>, p: Program)
    requires p.extRevision.Some?
    ensures var q := Decided(mem, tables, existing, p);
            && (existing.Some? ==> q.Some?)
            && (q.Some? ==> q.value.extended == if AcceptExtended(mem, tables, existing, p) then p.extended
                                                else if existing.Some? then existing.value.extended else [])
            && (q.Some? ==> q.value.extRevision == if AcceptExtended(mem, tables, existing, p) then p.extRevision
                                                   else if existing.Some? then existing.value.extRevision else None)
  {}

  /** What an update does to the extended part of a row: a fresh one replaces it, whatever becomes of the rest of its
      program, unless it is blocked; any other leaves it as it is, and a new row without one. */
  lemma UpdateTakesExtended(store: Store, mem: Memory, ps: seq<Program>, id: Id)
    requires StoreOk(store) && SourcesOk(mem.tables) && id in Pending(ps) && Pending(ps)[id].extRevision.Some?
    requires id in StoreAfter(store, mem, ps)
    ensures var p, row := Pending(ps)[id], StoreAfter(store, mem, ps)[id];
            var w := WriteAll(store, mem, BatchChanges(store, mem, ps));
            if ExtendedFresh(store, mem, ps, id) && id !in w.blocked
            then row.extended == p.extended && row.extRevision == Forget(p.extRevision)
            else if id in store then row.extended == store[id].extended && row.extRevision == store[id].extRevision
            else row.extended == [] && row.extRevision == None
  {
    PendingIds(ps, id);
    RowAfter(store, mem, ps, id);
    ExtendedAcceptedExactly(store, mem, ps, id);
    DecidedExtended(mem, BatchTables(mem, ps), Row(store, id), Pending(ps)[id]);
  }

  // ------------------------------------------------------------ one batch, the extended part

  predicate ActualExtended(p: Program) { p.extRevision.Some? && !Other(p.extRevision.value) }

  function ExtendedReception(p: Program): nat { if p.extRevision.Some? then p.extRevision.value.reception else 0 }

  /** Of the extended parts of an id from actual tables, the one received last, and the last of those. */
  ghost predicate LatestExtended(ps: seq<Program>, id: Id, k: int) {
    && 0 <= k < |ps| && ps[k].id == id && ActualExtended(ps[k])
    && forall j | 0 <= j < |ps| && ps[j].id == id && ActualExtended(ps[j]) ::
         ExtendedReception(ps[j]) <= ExtendedReception(ps[k])
         && (j > k ==> ExtendedReception(ps[j]) < ExtendedReception(ps[k]))
  }

  /** In one batch it is taken, with whatever basic part. */
  lemma {:induction false} BatchTakesLatestExtended(ps: seq<Program>, id: Id, k: int)
    requires LatestExtended(ps, id, k)
    ensures id in Pending(ps) && Pending(ps)[id].extended == ps[k].extended
            && Pending(ps)[id].extRevision == ps[k].extRevision
    decreases |ps|
  {
    var n := |ps| - 1;
    var before := ps[..n];
    PendingIds(before, id);
    if k < n {
      assert forall j | 0 <= j < n :: before[j] == ps[j];
      BatchTakesLatestExtended(before, id, k);
      if ps[n].id == id { ExtendedStays(Pending(before)[id], ps[n]); }
    } else if id in Pending(before) {
      OlderExtended(before, id, ps[n]);
      ExtendedMoves(Pending(before)[id], ps[n]);
    }
  }

  lemma ExtendedStays(previous: Program, incoming: Program)
    requires ActualExtended(previous)
    requires ActualExtended(incoming) ==> ExtendedReception(incoming) < ExtendedReception(previous)
    ensures var q := PreferPending(previous, incoming);
            q.extended == previous.extended && q.extRevision == previous.extRevision
  {}

  lemma ExtendedMoves(previous: Program, incoming: Program)
    requires ActualExtended(incoming)
    requires ActualExtended(previous) ==> ExtendedReception(previous) <= ExtendedReception(incoming)
    ensures var q := PreferPending(previous, incoming);
            q.extended == incoming.extended && q.extRevision == incoming.extRevision
  {}

  /** What is pending has an extended part of one of the programs. */
  lemma {:induction false} OlderExtended(ps: seq<Program>, id: Id, p: Program)
    requires id in Pending(ps)
    requires forall j | 0 <= j < |ps| && ps[j].id == id && ActualExtended(ps[j]) ::
               ExtendedReception(ps[j]) <= ExtendedReception(p)
    ensures ActualExtended(Pending(ps)[id]) ==> ExtendedReception(Pending(ps)[id]) <= ExtendedReception(p)
  {
    var n := |ps| - 1;
    assert forall j | 0 <= j < n :: ps[..n][j] == ps[j];
    if id in Pending(ps[..n]) { OlderExtended(ps[..n], id, p); }
  }

  // -------------------------------------------------------------------------- rows on air

  /** The row keeps its time, its flags and any name and description it has. */
  ghost predicate StaysOnAir(row: Program, q: Program) {
    && q.id == row.id && Start(q) == Start(row) && Duration(q) == Duration(row)
    && q.present == row.present && q.following == row.following
    && (row.name != "" ==> q.name == row.name) && (row.description != "" ==> q.description == row.description)
  }

  lemma DecidedOnAir(mem: Memory, tables: Tables, row: Program, p: Program)
    requires Flagged(row) && p.revision.Some? && p.id == row.id
    ensures var q := Decided(mem, tables, Some(row), p); q.Some? && StaysOnAir(row, q.value)
  {}

  /** A row on air is not moved, renamed or taken off air by a schedule, accepted or not; it only fills its gaps. */
  lemma OnAirRowStays(store: Store, mem: Memory, ps: seq<Program>, id: Id)
    requires StoreOk(store) && id in store && Flagged(store[id])
    requires id in Pending(ps) ==> Pending(ps)[id].revision.Some?
    ensures id in StoreAfter(store, mem, ps) ==> StaysOnAir(store[id], StoreAfter(store, mem, ps)[id])
  {
    PendingIds(ps, id);
    RowAfter(store, mem, ps, id);
    if id in Pending(ps) { DecidedOnAir(mem, BatchTables(mem, ps), store[id], Pending(ps)[id]); }
  }

  /** Over a row off air an accepted program puts its own flags and description, a rejected one only fills gaps. */
  lemma DecidedOffAir(mem: Memory, tables: Tables, row: Program, p: Program)
    requires !Flagged(row) && p.revision.Some? && p.id == row.id
    ensures var q := Decided(mem, tables, Some(row), p);
            && q.Some? && q.value.present == p.present && q.value.following == p.following
            && q.value.stream == (if AcceptBasic(mem, tables, Some(row), p) then p.stream else row.stream)
            && q.value.description
               == (if (AcceptBasic(mem, tables, Some(row), p) && p.description != "") || row.description == ""
                   then p.description else row.description)
            && (p.extRevision.None? ==>
                  q.value.extended
                  == if (AcceptBasic(mem, tables, Some(row), p) && p.extended != []) || row.extended == []
                     then p.extended else row.extended)
  {}

  // --------------------------------------------------------------- what is remembered of tables

  lemma NewestOf(tables: Tables, key: Table, r: Revision, other: Table, x: nat)
    ensures UpTo(NoteNewest(tables, key, r), other, x)
            <==> UpTo(tables, other, x) && (other == key ==> r.reception <= x)
  {}

  /** After an announcement what is known of a table is up to `x` exactly if that and all announced of it is. */
  lemma {:induction false} AnnouncedUpTo(mem: Memory, tables: seq<(Table, Revision)>, key: Table, x: nat)
    ensures UpTo(Announced(mem, tables).tables, key, x)
            <==> UpTo(mem.tables, key, x)
                 && forall j | 0 <= j < |tables| && tables[j].0 == key :: tables[j].1.reception <= x
  {
    if tables != [] {
      var n := |tables| - 1;
      AnnouncedUpTo(mem, tables[..n], key, x);
      NewestOf(Announced(mem, tables[..n]).tables, tables[n].0, tables[n].1, key, x);
      assert forall j | 0 <= j < n :: tables[..n][j] == tables[j];
    }
  }

  /** A revision that is remembered of an id is remembered of its table. */
  lemma RecordedUpTo(mem: Memory, row: Program, key: Table, x: nat)
    ensures var mem1 := RecordBasic(mem, row);
            UpTo(RecordExtended(mem1, row).tables, key, x)
            <==> UpTo(mem.tables, key, x)
                 && (row.revision.Some? && !Superseded(mem.basic, row.id, row.revision.value) ==>
                       RevisionUpTo(row, row.revision, key, x))
                 && (row.extRevision.Some? && !Superseded(mem.extended, row.id, row.extRevision.value) ==>
                       RevisionUpTo(row, row.extRevision, key, x))
  {}
}
