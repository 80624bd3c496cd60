/** When an update leaves programs of one service overlapping (internal/program/manager.go). */
module ProgramOverlap {
  import opened Basics
  import opened ProgramModel
  import opened ProgramWrite
  import opened ProgramUpsert

  lemma BatchProper(store: Store, mem: Memory, ps: seq<Program>)
    requires StoreOk(store)
    ensures Proper(store, BatchChanges(store, mem, ps))
  {
    BatchOk(ps);
    ChangesOk(store, mem, BatchTables(mem, ps), Pending(ps), Order(ps));
  }

  /** From a store without overlaps, whatever is on air and whatever revisions there are, an update leaves none
      exactly when no stuck pair is among its changes and none takes a place over a row on air. */
  lemma UpdateOverlapsExactlyWhenStuck(store: Store, mem: Memory, ps: seq<Program>)
    requires StoreOk(store) && NoOverlaps(store)
    ensures var cs := BatchChanges(store, mem, ps);
            NoOverlaps(StoreAfter(store, mem, ps))
            <==> (forall i, k :: !Stuck(store, mem, cs, i, k)) && forall k, id :: !Ignored(store, mem, cs, k, id)
  {
    BatchProper(store, mem, ps);
    OverlapsExactlyWhenStuck(store, mem, BatchChanges(store, mem, ps));
  }

  // ----------------------------------------------------------------- nothing on air

  /** Neither the stored rows nor the programs are flagged as present or following. */
  ghost predicate OffAir(store: Store, ps: seq<Program>) {
    && StoreOk(store) && (forall id | id in store :: !Flagged(store[id]))
    && forall i | 0 <= i < |ps| :: !Flagged(ps[i])
  }

  lemma {:induction false} PendingOffAir(ps: seq<Program>, id: Id)
    requires forall i | 0 <= i < |ps| :: !Flagged(ps[i])
    ensures id in Pending(ps) ==> !Flagged(Pending(ps)[id])
  {
    if ps != [] { PendingOffAir(ps[..|ps| - 1], id); }
  }

  lemma DecidedOffAir(mem: Memory, tables: Tables, existing: Option<Program>, p: Program)
    requires !Flagged(p) && (existing.Some? ==> !Flagged(existing.value))
    ensures Decided(mem, tables, existing, p).Some? ==> !Flagged(Decided(mem, tables, existing, p).value)
  {}

  lemma ChangesOffAir(store: Store, mem: Memory, ps: seq<Program>, i: int)
    requires OffAir(store, ps) && 0 <= i < |BatchChanges(store, mem, ps)|
    ensures !Flagged(BatchChanges(store, mem, ps)[i].row)
  {
    var tables, pending, ids, cs := BatchTables(mem, ps), Pending(ps), Order(ps), BatchChanges(store, mem, ps);
    BatchOk(ps);
    ChangesOk(store, mem, tables, pending, ids);
    assert ChangeOk(store, mem, tables, pending, ids, cs, i);
    PendingOffAir(ps, cs[i].row.id);
    DecidedOffAir(mem, tables, Row(store, cs[i].row.id), pending[cs[i].row.id]);
  }

  /** Then nothing is passed over. */
  lemma NothingIgnored(store: Store, mem: Memory, ps: seq<Program>, k: int, id: Id)
    requires OffAir(store, ps)
    ensures !Ignored(store, mem, BatchChanges(store, mem, ps), k, id)
  {
    var cs := BatchChanges(store, mem, ps);
    forall i | WroteAt(cs, i, id) ensures !PassesOver(store, mem, cs, k, i + 1, Left(store, mem, cs, i)) {
      ChangesOffAir(store, mem, ps, i);
    }
  }

  // ------------------------------------------------------------- updates without revisions

  lemma {:induction false} PendingPlain(ps: seq<Program>, id: Id)
    requires forall i | 0 <= i < |ps| :: ps[i].revision.None?
    ensures id in Pending(ps) ==> Pending(ps)[id].revision.None?
  {
    if ps != [] { PendingPlain(ps[..|ps| - 1], id); }
  }

  /** A program without a revision is written with its own time and the stored row's revision. */
  lemma ChangeOfPlain(store: Store, mem: Memory, tables: Tables, p: Program)
    requires p.revision.None? && !Flagged(p)
    ensures var c := ChangeFor(store, mem, tables, p);
            c.Some? ==>
              && SameTime(c.value.row, p)
              && c.value.row.revision == (if p.id in store then store[p.id].revision else None)
  {}

  ghost predicate Moves(store: Store, c: Change) { c.row.id in store ==> !SameTime(store[c.row.id], c.row) }

  /** None is left when every written row is new or moves and none is blocked. */
  lemma UnblockedMovesNeverOverlap(store: Store, mem: Memory, ps: seq<Program>)
    requires OffAir(store, ps) && NoOverlaps(store)
    requires var cs := BatchChanges(store, mem, ps);
             forall k | 0 <= k < |cs| :: Moves(store, cs[k]) && !BlockedAt(store, mem, cs, k)
    ensures NoOverlaps(StoreAfter(store, mem, ps))
  {
    UpdateOverlapsExactlyWhenStuck(store, mem, ps);
    var cs := BatchChanges(store, mem, ps);
    forall k, id ensures !Ignored(store, mem, cs, k, id) { NothingIgnored(store, mem, ps, k, id); }
    forall i, k ensures !Stuck(store, mem, cs, i, k) {
      assert 0 <= k < |cs| ==> Moves(store, cs[k]) && !BlockedAt(store, mem, cs, k);
    }
  }

  /** That is so for programs without revisions that are new or move, over rows without revisions. */
  lemma MovedRowsNeverOverlap(store: Store, mem: Memory, ps: seq<Program>)
    requires OffAir(store, ps) && NoOverlaps(store) && (forall i | 0 <= i < |ps| :: ps[i].revision.None?)
    requires forall id | id in Pending(ps) && id in store ::
               store[id].revision.None? && !SameTime(store[id], Pending(ps)[id])
    ensures NoOverlaps(StoreAfter(store, mem, ps))
  {
    var tables, pending, ids, cs := BatchTables(mem, ps), Pending(ps), Order(ps), BatchChanges(store, mem, ps);
    BatchOk(ps);
    ChangesOk(store, mem, tables, pending, ids);
    forall k | 0 <= k < |cs| ensures Moves(store, cs[k]) && !BlockedAt(store, mem, cs, k) {
      assert ChangeOk(store, mem, tables, pending, ids, cs, k);
      var p := pending[cs[k].row.id];
      PendingPlain(ps, p.id);
      PendingOffAir(ps, p.id);
      ChangeOfPlain(store, mem, tables, p);
    }
    UnblockedMovesNeverOverlap(store, mem, ps);
  }

  // -------------------------------------------------------------------- three failures

  lemma Collected(p: Program, q: Program)
    requires p.id != q.id
    ensures Pending([p, q]) == map[p.id := p, q.id := q] && Order([p, q]) == [p.id, q.id]
  {
    var none, one, two := [], [p], [p, q];
    assert one[..|one| - 1] == none && two[..|two| - 1] == one;
    assert Pending(none) == map[] && Order(none) == [];
    assert Pending(one) == map[p.id := p] && Order(one) == [p.id];
  }

  lemma NoTables(known: Tables, pending: map<Id, Program>, ids: seq<Id>)
    requires forall id | id in pending :: pending[id].revision.None? && pending[id].extRevision.None?
    ensures NewestTables(known, pending, ids) == map[]
  {}

  lemma ChangesSnoc(store: Store, mem: Memory, tables: Tables, pending: map<Id, Program>, ids: seq<Id>, id: Id)
    requires id in pending && ChangeFor(store, mem, tables, pending[id]).Some?
    ensures Changes(store, mem, tables, pending, ids + [id])
         == Changes(store, mem, tables, pending, ids) + [ChangeFor(store, mem, tables, pending[id]).value]
  {
    assert (ids + [id])[..|ids|] == ids;
  }

  lemma TwoPrograms(store: Store, mem: Memory, p: Program, q: Program)
    requires p.id != q.id && p.revision.None? && q.revision.None? && p.extRevision.None? && q.extRevision.None?
    requires ChangeFor(store, mem, map[], p).Some? && ChangeFor(store, mem, map[], q).Some?
    ensures BatchChanges(store, mem, [p, q])
            == [ChangeFor(store, mem, map[], p).value, ChangeFor(store, mem, map[], q).value]
  {
    Collected(p, q);
    var pending := map[p.id := p, q.id := q];
    NoTables(mem.tables, pending, [p.id, q.id]);
    ChangesSnoc(store, mem, map[], pending, [], p.id);
    ChangesSnoc(store, mem, map[], pending, [p.id], q.id);
    assert [] + [p.id] == [p.id] && [p.id] + [q.id] == [p.id, q.id];
  }

  function Show(event: nat, revision: Option<Revision>, start: int, name: string): Program {
    Program(Id(1, 1, event), 1, revision, None, false, false, Some(start), Some(100), name, "", [])
  }

  /** A row that keeps its time takes back its own removal: a new program takes its place, and the same
      update brings it back under another name. */
  lemma StayingRowOverlaps(mem: Memory)
    ensures exists store, ps :: OffAir(store, ps) && NoOverlaps(store) && !NoOverlaps(StoreAfter(store, mem, ps))
  {
    var x, y := Show(1, None, 100, "x"), Show(2, None, 150, "y");
    var x' := x.(name := "x again");
    var store := map[x.id := x];
    TwoPrograms(store, mem, y, x');
    var cs := [Change(y, false), Change(x', false)];
    assert BatchChanges(store, mem, [y, x']) == cs;
    SecondHolds(store, mem, cs);
    UpdateOverlapsExactlyWhenStuck(store, mem, [y, x']);
  }

  /** So does a row that moves and is blocked: here an actual program stands where it would go. */
  lemma BlockedRowOverlaps(mem: Memory)
    ensures exists store: Store, ps: seq<Program> ::
              && OffAir(store, ps) && NoOverlaps(store) && !NoOverlaps(StoreAfter(store, mem, ps))
              && AllNewOrMove(store, ps)
  {
    var x, z := Show(1, Some(Revision("other", 0x60, 1, 0)), 100, "x"),
        Show(3, Some(Revision("", 0x50, 1, 0)), 300, "z");
    var y, x' := Show(2, None, 150, "y"), Show(1, None, 350, "x");
    var store, ps := map[x.id := x, z.id := z], [y, x'];
    BlockedInput(store, x, y, z, x');
    BlockedChanges(store, mem, x, y, z, x');
    UpdateOverlapsExactlyWhenStuck(store, mem, ps);
  }

  /** No program has a revision, and each is new or moves. */
  ghost predicate AllNewOrMove(store: Store, ps: seq<Program>) {
    && (forall i | 0 <= i < |ps| :: ps[i].revision.None?)
    && forall id | id in Pending(ps) && id in store :: !SameTime(store[id], Pending(ps)[id])
  }

  lemma BlockedInput(store: Store, x: Program, y: Program, z: Program, x': Program)
    requires x == Show(1, Some(Revision("other", 0x60, 1, 0)), 100, "x") && y == Show(2, None, 150, "y")
    requires z == Show(3, Some(Revision("", 0x50, 1, 0)), 300, "z") && x' == Show(1, None, 350, "x")
    requires store == map[x.id := x, z.id := z]
    ensures OffAir(store, [y, x']) && NoOverlaps(store) && AllNewOrMove(store, [y, x'])
  {
    Collected(y, x');
    assert Pending([y, x']) == map[y.id := y, x'.id := x'];
    forall a, b ensures Disjoint(store, a, b) {}
  }

  lemma BlockedChanges(store: Store, mem: Memory, x: Program, y: Program, z: Program, x': Program)
    requires x == Show(1, Some(Revision("other", 0x60, 1, 0)), 100, "x") && y == Show(2, None, 150, "y")
    requires z == Show(3, Some(Revision("", 0x50, 1, 0)), 300, "z") && x' == Show(1, None, 350, "x")
    requires store == map[x.id := x, z.id := z]
    ensures Stuck(store, mem, BatchChanges(store, mem, [y, x']), 0, 1)
  {
    var cs := [Change(y, false), Change(x'.(revision := x.revision), false)];
    TwoPrograms(store, mem, y, x');
    assert BatchChanges(store, mem, [y, x']) == cs;
    BlockedSecond(store, mem, cs, z.id);
    SecondHolds(store, mem, cs);
  }

  lemma BlockedSecond(store: Store, mem: Memory, cs: seq<Change>, z: Id)
    requires |cs| == 2 && z in store && store[z].id == z && z != cs[0].row.id && z != cs[1].row.id && !Flagged(store[z])
    requires Overlap(cs[1].row, store[z]) && Blocks(mem, cs[1].row, store[z]) && !Undisturbing(store, cs[1].row)
    ensures BlockedAt(store, mem, cs, 1)
  {
    var first := cs[..1];
    assert first == [cs[0]] && first[..|first| - 1] == [];
    assert WriteAll(store, mem, []) == Progress(map[], {}, {});
    assert WriteAll(store, mem, first) == WriteOne(store, mem, Progress(map[], {}, {}), cs[0]);
    var written := WriteAll(store, mem, first).written[cs[1].row.id := cs[1].row];
    assert z !in written;
    assert Latest(store, written, cs[1].row, z) == Some(store[z]);
    assert BlockedBy(store, mem, written, cs[1], z) && z in store.Keys + written.Keys;
  }

  /** Two changes, the first of which takes a place that overlaps the second's old one. */
  lemma SecondHolds(store: Store, mem: Memory, cs: seq<Change>)
    requires |cs| == 2 && Proper(store, cs) && cs[0].row.revision.None? && cs[0].row.id !in store
    requires HoldsPlace(store, mem, cs, 1)
    requires Overlap(Stored(cs[0].row), Stored(if BlockedAt(store, mem, cs, 1) then store[cs[1].row.id] else cs[1].row))
    ensures Stuck(store, mem, cs, 0, 1)
  {
    assert !BlockedAt(store, mem, cs, 0);
    forall i, p ensures !(1 <= i && DisplacedAt(store, mem, cs, i, p)) {}
  }

  /** A new program takes a place over one that is on air, which stays: no row keeps its time or is blocked. */
  lemma OnAirRowOverlaps(mem: Memory)
    ensures exists store: Store, ps: seq<Program> ::
              && StoreOk(store) && NoOverlaps(store) && !NoOverlaps(StoreAfter(store, mem, ps))
              && (forall i | 0 <= i < |ps| :: ps[i].revision.None? && !Flagged(ps[i]) && ps[i].id !in store)
  {
    var x, y := Show(1, None, 100, "x").(present := true), Show(2, None, 150, "y");
    var store := map[x.id := x];
    OneNew(store, mem, y);
    NewOverFlagged(store, mem, y, x.id);
    UpdateOverlapsExactlyWhenStuck(store, mem, [y]);
  }

  lemma OneNew(store: Store, mem: Memory, p: Program)
    requires p.id !in store && p.revision.None? && p.extRevision.None?
    ensures BatchChanges(store, mem, [p]) == [Change(p, p.present)]
  {
    var none, one := [], [p];
    assert one[..|one| - 1] == none && Pending(none) == map[] && Order(none) == [];
    assert Pending(one) == map[p.id := p] && Order(one) == [p.id];
    NoTables(mem.tables, Pending(one), Order(one));
    ChangesSnoc(store, mem, map[], Pending(one), [], p.id);
    assert [] + [p.id] == [p.id];
  }

  lemma NewOverFlagged(store: Store, mem: Memory, p: Program, id: Id)
    requires p.id !in store && p.revision.None? && !p.present && id in store && Flagged(store[id]) && store[id].id == id
    requires Timed(p) && Overlap(Stored(store[id]), Stored(p))
    ensures Ignored(store, mem, [Change(p, false)], 0, id)
  {
    var cs := [Change(p, false)];
    forall i, q ensures !(1 <= i && DisplacedAt(store, mem, cs, i, q)) {}
    assert !DisplacedAt(store, mem, cs, 0, store[id]);
    forall j ensures !WroteAt(cs, j, id) {}
    assert PassesOver(store, mem, cs, 0, 0, Row(store, id));
  }
}
