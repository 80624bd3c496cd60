/**
 Writing merged programs (internal/program/manager.go): rows that overlap a written one are
 removed, or block it when they are more authoritative.
 */
module ProgramWrite {
  import opened Basics
  import opened ProgramModel

  predicate SameService(a: Id, b: Id) { a.network == b.network && a.service == b.service }

  predicate Timed(p: Program) { p.start.Some? && Duration(p) > 0 }

  /** Two timed programs of one service that share some time. */
  predicate Overlap(p: Program, q: Program) {
    && SameService(p.id, q.id) && Timed(p) && Timed(q)
    && Start(p) < Start(q) + Duration(q) && Start(q) < Start(p) + Duration(p)
  }

  /** The program is on at that moment. */
  predicate RunsAt(p: Program, t: int) { p.start.Some? && Start(p) <= t < Start(p) + Duration(p) }

  /** Programs overlap exactly if they are of one service and there is a moment at which both are on. */
  lemma OverlapMeans(p: Program, q: Program)
    ensures Overlap(p, q) <==> p.id.network == q.id.network && p.id.service == q.id.service
                               && exists t :: RunsAt(p, t) && RunsAt(q, t)
  {
    if Overlap(p, q) {
      var t := if Start(p) < Start(q) then Start(q) else Start(p);
      assert RunsAt(p, t) && RunsAt(q, t);
    }
  }

  predicate SameTime(p: Program, q: Program) { Start(p) == Start(q) && Duration(p) == Duration(q) }

  /** The rows a time-range query of the store gives for `p`. */
  predicate Listed(row: Program, p: Program) {
    SameService(row.id, p.id) && Start(row) + Duration(row) >= Start(p) && Start(row) <= Start(p) + Duration(p)
  }

  /** A row to write, and whether the incoming program is the present one. */
  datatype Change = Change(row: Program, onAir: bool)

  /** The rows written so far, and the ids to delete and to leave unwritten. */
  datatype Progress = Progress(written: Store, removed: set<Id>, blocked: set<Id>)

  /** The row that has this id as far as `p` can tell. */
  function Latest(store: Store, written: Store, p: Program, id: Id): Option<Program> {
    if id in written && SameService(id, p.id) then Some(written[id])
    else if id in store && Listed(store[id], p) then Some(store[id])
    else None
  }

  /** Another row that overlaps the change; one on air is left alone by the others. */
  predicate Rival(store: Store, written: Store, c: Change, id: Id) {
    var row := Latest(store, written, c.row, id);
    row.Some? && id != c.row.id && Overlap(c.row, row.value) && (Flagged(row.value) ==> c.onAir)
  }

  /** The rival is at least as authoritative as `p`. */
  predicate Blocks(mem: Memory, p: Program, row: Program) {
    p.revision.Some? &&
    var previous := if row.revision.Some? then row.revision else if row.id in mem.basic then Some(mem.basic[row.id])
        else None;
    if previous.None? then Other(p.revision.value) else !PreferTo(p.revision.value, previous.value)
  }

  predicate BlockedBy(store: Store, mem: Memory, written: Store, c: Change, id: Id) {
    Rival(store, written, c, id) && Blocks(mem, c.row, Latest(store, written, c.row, id).value)
  }

  function Rivals(store: Store, written: Store, c: Change): set<Id> {
    set id | id in store.Keys + written.Keys && Rival(store, written, c, id)
  }

  predicate IsBlocked(store: Store, mem: Memory, written: Store, c: Change) {
    exists id | id in store.Keys + written.Keys :: BlockedBy(store, mem, written, c, id)
  }

  /** A row that needs no room: it is not timed, or stays where it was. */
  predicate Undisturbing(store: Store, p: Program) { (p.id in store && SameTime(store[p.id], p)) || !Timed(p) }

  /** Writing one row. */
  function WriteOne(store: Store, mem: Memory, w: Progress, c: Change): Progress {
    var id := c.row.id;
    var written, removed := w.written[id := c.row], w.removed - {id};
    if Undisturbing(store, c.row) then Progress(written, removed, w.blocked)
    else if IsBlocked(store, mem, written, c) then
      Progress(if id in store then written[id := store[id]] else written - {id}, removed, w.blocked + {id})
    else Progress(written, removed + Rivals(store, written, c), w.blocked)
  }

  function WriteAll(store: Store, mem: Memory, cs: seq<Change>): Progress {
    if cs == [] then Progress(map[], {}, {})
    else WriteOne(store, mem, WriteAll(store, mem, cs[..|cs| - 1]), cs[|cs| - 1])
  }

  predicate Kept(w: Progress, p: Program) { p.id !in w.removed && p.id !in w.blocked }

  /** The store after deleting and then writing what is kept. */
  function PutAll(store: Store, w: Progress, cs: seq<Change>): Store {
    if cs == [] then store - w.removed
    else
      var before := PutAll(store, w, cs[..|cs| - 1]);
      var p := cs[|cs| - 1].row;
      if Kept(w, p) then before[p.id := Stored(p)] else before
  }

  function Written(store: Store, mem: Memory, cs: seq<Change>): Store { PutAll(store, WriteAll(store, mem, cs), cs) }

  ghost predicate DistinctIds(cs: seq<Change>) { forall i, j | 0 <= i < j < |cs| :: cs[i].row.id != cs[j].row.id }

  ghost predicate WroteAt(cs: seq<Change>, j: int, id: Id) { 0 <= j < |cs| && cs[j].row.id == id }

  ghost predicate Wrote(cs: seq<Change>, id: Id) { exists j :: WroteAt(cs, j, id) }

  lemma {:induction false} PutAllRows(store: Store, w: Progress, cs: seq<Change>, id: Id)
    requires DistinctIds(cs)
    ensures (forall j :: WroteAt(cs, j, id) ==> !Kept(w, cs[j].row)) ==>
              Row(PutAll(store, w, cs), id) == Row(store - w.removed, id)
    ensures forall j :: WroteAt(cs, j, id) && Kept(w, cs[j].row) ==>
              Row(PutAll(store, w, cs), id) == Some(Stored(cs[j].row))
  {
    if cs != [] {
      var n := |cs| - 1;
      PutAllRows(store, w, cs[..n], id);
      forall j ensures WroteAt(cs, j, id) && j < n <==> WroteAt(cs[..n], j, id) {}
      if cs[n].row.id == id {
        assert WroteAt(cs, n, id);
      }
    }
  }

  // ------------------------------------------------------------ what is left standing

  /** Every change has an id of its own, and every stored row has its own id. */
  ghost predicate Proper(store: Store, cs: seq<Change>) { DistinctIds(cs) && forall id :: OwnId(store, id) }

  predicate OwnId(store: Store, id: Id) { id in store ==> store[id].id == id }

  /** Change `k` is not written, because a rival is at least as authoritative. */
  ghost predicate BlockedAt(store: Store, mem: Memory, cs: seq<Change>, k: int) {
    && 0 <= k < |cs| && !Undisturbing(store, cs[k].row)
    && IsBlocked(store, mem, WriteAll(store, mem, cs[..k]).written[cs[k].row.id := cs[k].row], cs[k])
  }

  /** The row that change `k` leaves under its id. */
  ghost function Left(store: Store, mem: Memory, cs: seq<Change>, k: int): Option<Program>
    requires 0 <= k < |cs|
  {
    if BlockedAt(store, mem, cs, k) then Row(store, cs[k].row.id) else Some(cs[k].row)
  }

  /** Change `i` takes a new place. */
  ghost predicate TakesPlace(store: Store, mem: Memory, cs: seq<Change>, i: int) {
    0 <= i < |cs| && !Undisturbing(store, cs[i].row) && !BlockedAt(store, mem, cs, i)
  }

  /** Change `i` takes a new place, which overlaps `p`; only a present program displaces one on air. */
  ghost predicate DisplacedAt(store: Store, mem: Memory, cs: seq<Change>, i: int, p: Program) {
    TakesPlace(store, mem, cs, i) && cs[i].row.id != p.id && Overlap(cs[i].row, p) && (Flagged(p) ==> cs[i].onAir)
  }

  /** Some change from index `from` on displaces `p`. */
  ghost predicate DisplacedFrom(store: Store, mem: Memory, cs: seq<Change>, from: int, p: Program) {
    exists i :: from <= i && DisplacedAt(store, mem, cs, i, p)
  }

  ghost predicate Displaced(store: Store, mem: Memory, cs: seq<Change>, from: int, row: Option<Program>) {
    row.Some? && DisplacedFrom(store, mem, cs, from, row.value)
  }

  /** The row of an id as the writes so far leave it. */
  function Standing(store: Store, w: Progress, id: Id): Option<Program> {
    if id in w.written then Some(w.written[id]) else Row(store, id)
  }

  /** Where an id that was written stands. */
  ghost predicate WrittenOk(store: Store, mem: Memory, cs: seq<Change>, w: Progress, j: int) {
    0 <= j < |cs| ==>
      var id, left := cs[j].row.id, Left(store, mem, cs, j);
      && Standing(store, w, id) == left && (id in w.blocked <==> BlockedAt(store, mem, cs, j))
      && (id in w.removed <==> Displaced(store, mem, cs, j + 1, left))
  }

  /** Where any other id stands. */
  ghost predicate UnwrittenOk(store: Store, mem: Memory, cs: seq<Change>, w: Progress, id: Id) {
    !Wrote(cs, id) ==>
      id !in w.written && id !in w.blocked && (id in w.removed <==> Displaced(store, mem, cs, 0, Row(store, id)))
  }

  ghost predicate ProgressOk(store: Store, mem: Memory, cs: seq<Change>, w: Progress) {
    (forall j :: WrittenOk(store, mem, cs, w, j)) && forall id :: UnwrittenOk(store, mem, cs, w, id)
  }

  lemma BlockedLater(store: Store, mem: Memory, cs: seq<Change>, c: Change, k: int)
    requires k < |cs|
    ensures BlockedAt(store, mem, cs + [c], k) <==> BlockedAt(store, mem, cs, k)
  {
    if 0 <= k { assert (cs + [c])[..k] == cs[..k]; }
  }

  lemma DisplacedMore(store: Store, mem: Memory, cs: seq<Change>, c: Change, from: int, q: Program)
    requires from <= |cs|
    ensures DisplacedFrom(store, mem, cs + [c], from, q)
            <==> DisplacedFrom(store, mem, cs, from, q) || DisplacedAt(store, mem, cs + [c], |cs|, q)
  {
    var cs' := cs + [c];
    forall i | i < |cs| ensures DisplacedAt(store, mem, cs', i, q) <==> DisplacedAt(store, mem, cs, i, q) {
      BlockedLater(store, mem, cs, c, i);
    }
    if DisplacedFrom(store, mem, cs, from, q) {
      var i :| from <= i && DisplacedAt(store, mem, cs, i, q);
      assert DisplacedAt(store, mem, cs', i, q);
    }
  }

  lemma WroteMore(cs: seq<Change>, c: Change, id: Id)
    ensures Wrote(cs + [c], id) <==> Wrote(cs, id) || c.row.id == id
  {
    var cs' := cs + [c];
    forall j ensures WroteAt(cs', j, id) <==> WroteAt(cs, j, id) || (j == |cs| && c.row.id == id) {}
    if Wrote(cs, id) {
      var j :| WroteAt(cs, j, id);
      assert WroteAt(cs', j, id);
    }
    if c.row.id == id { assert WroteAt(cs', |cs|, id); }
  }

  /** A change rivals exactly the standing rows it overlaps, those on air only if it is present. */
  lemma StandingRivals(store: Store, mem: Memory, cs: seq<Change>, w: Progress, c: Change, written: Store, id: Id)
    requires Proper(store, cs + [c]) && ProgressOk(store, mem, cs, w)
    requires written == w.written[c.row.id := c.row] && id != c.row.id
    ensures var row := Standing(store, w, id);
            Rival(store, written, c, id) <==> row.Some? && Overlap(c.row, row.value) && (Flagged(row.value) ==> c.onAir)
    ensures Rival(store, written, c, id) ==> id in store.Keys + written.Keys
  {
    assert OwnId(store, id) && UnwrittenOk(store, mem, cs, w, id);
    if j :| WroteAt(cs, j, id) {
      assert WrittenOk(store, mem, cs, w, j);
      assert (cs + [c])[j] == cs[j];
    }
  }

  /** One more change, as every other id sees it. */
  lemma OthersNext(store: Store, mem: Memory, cs: seq<Change>, c: Change, id: Id)
    requires Proper(store, cs + [c]) && ProgressOk(store, mem, cs, WriteAll(store, mem, cs)) && id != c.row.id
    ensures var w, cs' := WriteAll(store, mem, cs), cs + [c];
            var w', row := WriteOne(store, mem, w, c), Standing(store, w, id);
            && Standing(store, w', id) == row && (id in w'.blocked <==> id in w.blocked)
                 && (id in w'.written <==> id in w.written)
            && (id in w'.removed
                <==> id in w.removed
                     || (row.Some? && row.value.id == id && DisplacedAt(store, mem, cs', |cs|, row.value)))
            && (row.Some? ==> row.value.id == id)
  {
    var w, cs' := WriteAll(store, mem, cs), cs + [c];
    var written := w.written[c.row.id := c.row];
    assert cs'[..|cs|] == cs && cs'[|cs|] == c;
    StandingRivals(store, mem, cs, w, c, written, id);
    assert OwnId(store, id) && UnwrittenOk(store, mem, cs, w, id);
    if j :| WroteAt(cs, j, id) { assert WrittenOk(store, mem, cs, w, j); }
  }

  /** One more change, as its own id sees it. */
  lemma OwnNext(store: Store, mem: Memory, cs: seq<Change>, c: Change)
    requires Proper(store, cs + [c]) && ProgressOk(store, mem, cs, WriteAll(store, mem, cs))
    ensures WrittenOk(store, mem, cs + [c], WriteOne(store, mem, WriteAll(store, mem, cs), c), |cs|)
  {
    var w, cs' := WriteAll(store, mem, cs), cs + [c];
    assert cs'[..|cs|] == cs && cs'[|cs|] == c;
    forall j ensures !WroteAt(cs, j, c.row.id) { assert 0 <= j < |cs| ==> cs'[j] == cs[j]; }
    assert UnwrittenOk(store, mem, cs, w, c.row.id);
  }

  lemma ChangeStep(store: Store, mem: Memory, cs: seq<Change>, c: Change)
    requires Proper(store, cs + [c]) && ProgressOk(store, mem, cs, WriteAll(store, mem, cs))
    ensures ProgressOk(store, mem, cs + [c], WriteOne(store, mem, WriteAll(store, mem, cs), c))
  {
    var w, cs' := WriteAll(store, mem, cs), cs + [c];
    var w' := WriteOne(store, mem, w, c);
    OwnNext(store, mem, cs, c);
    forall j ensures WrittenOk(store, mem, cs', w', j) {
      if 0 <= j < |cs| {
        assert WrittenOk(store, mem, cs, w, j) && cs'[j] == cs[j] && cs'[|cs|] == c;
        OthersNext(store, mem, cs, c, cs[j].row.id);
        BlockedLater(store, mem, cs, c, j);
        var left := Left(store, mem, cs, j);
        if left.Some? { DisplacedMore(store, mem, cs, c, j + 1, left.value); }
      }
    }
    forall id ensures UnwrittenOk(store, mem, cs', w', id) {
      WroteMore(cs, c, id);
      if !Wrote(cs', id) {
        assert UnwrittenOk(store, mem, cs, w, id);
        OthersNext(store, mem, cs, c, id);
        if id in store { DisplacedMore(store, mem, cs, c, 0, store[id]); }
      }
    }
  }

  lemma ProperPrefix(store: Store, cs: seq<Change>, n: nat)
    requires Proper(store, cs) && n <= |cs|
    ensures Proper(store, cs[..n])
  {}

  lemma {:induction false} ProgressRun(store: Store, mem: Memory, cs: seq<Change>)
    requires Proper(store, cs)
    ensures ProgressOk(store, mem, cs, WriteAll(store, mem, cs))
  {
    if cs == [] {
      forall id ensures UnwrittenOk(store, mem, cs, WriteAll(store, mem, cs), id) {
        if id in store { forall i ensures !DisplacedAt(store, mem, cs, i, store[id]) {} }
      }
    } else {
      var n := |cs| - 1;
      assert cs == cs[..n] + [cs[n]];
      ProperPrefix(store, cs, n);
      ProgressRun(store, mem, cs[..n]);
      ChangeStep(store, mem, cs[..n], cs[n]);
    }
  }

  /** The row of an id after the writes, if it has one. */
  ghost function Final(store: Store, mem: Memory, cs: seq<Change>, from: int, row: Option<Program>): Option<Program> {
    if Displaced(store, mem, cs, from, row) then None else row
  }

  /** What the writes leave: what a change left under its id, unless a later change displaces it, and of the
      other rows those that no change displaces. */
  lemma WriteResult(store: Store, mem: Memory, cs: seq<Change>, id: Id)
    requires Proper(store, cs) && StoreOk(store)
    ensures forall j :: WroteAt(cs, j, id) ==>
              var row := Final(store, mem, cs, j + 1, Left(store, mem, cs, j));
              Row(Written(store, mem, cs), id) == if row.Some? then Some(Stored(row.value)) else None
    ensures !Wrote(cs, id) ==> Row(Written(store, mem, cs), id) == Final(store, mem, cs, 0, Row(store, id))
  {
    var w := WriteAll(store, mem, cs);
    ProgressRun(store, mem, cs);
    PutAllRows(store, w, cs, id);
    assert UnwrittenOk(store, mem, cs, w, id);
    forall j | WroteAt(cs, j, id)
      ensures var row := Final(store, mem, cs, j + 1, Left(store, mem, cs, j));
              Row(Written(store, mem, cs), id) == if row.Some? then Some(Stored(row.value)) else None
    {
      assert WrittenOk(store, mem, cs, w, j);
      if !Kept(w, cs[j].row) {
        forall k | WroteAt(cs, k, id) ensures !Kept(w, cs[k].row) {}
      }
    }
  }

  // ----------------------------------------------------------------- no overlaps

  ghost predicate Disjoint(store: Store, a: Id, b: Id) {
    a in store && b in store && a != b ==> store[a].id == a && store[b].id == b && !Overlap(store[a], store[b])
  }

  ghost predicate NoOverlaps(store: Store) { forall a, b :: Disjoint(store, a, b) }

  /** Change `k` leaves its id where it was: it keeps the time of the stored row, or it is blocked. */
  ghost predicate HoldsPlace(store: Store, mem: Memory, cs: seq<Change>, k: int) {
    && 0 <= k < |cs| && cs[k].row.id in store
    && (SameTime(store[cs[k].row.id], cs[k].row) || BlockedAt(store, mem, cs, k))
  }

  /** Of two written ids whose rows overlap, the later one held its place, which takes back its removal by
      the earlier one, and neither row is displaced afterwards. */
  ghost predicate Stuck(store: Store, mem: Memory, cs: seq<Change>, i: int, k: int) {
    && 0 <= i < k < |cs| && HoldsPlace(store, mem, cs, k)
    && var a, b := Final(store, mem, cs, i + 1, Left(store, mem, cs, i)),
         Final(store, mem, cs, k + 1, Left(store, mem, cs, k));
       a.Some? && b.Some? && Overlap(Stored(a.value), Stored(b.value))
  }

  /** Change `k`, which is not present, takes a new place over a row on air that has stood since `from`, and
      neither is displaced afterwards. */
  ghost predicate PassesOver(store: Store, mem: Memory, cs: seq<Change>, k: int, from: int, row: Option<Program>) {
    && from <= k && TakesPlace(store, mem, cs, k) && !cs[k].onAir && row.Some? && Flagged(row.value)
    && !Displaced(store, mem, cs, from, row) && !DisplacedFrom(store, mem, cs, k + 1, cs[k].row)
    && Overlap(Stored(row.value), Stored(cs[k].row))
  }

  /** Such a row may be an earlier change's or one that is not written at all. */
  ghost predicate Ignored(store: Store, mem: Memory, cs: seq<Change>, k: int, id: Id) {
    || (!Wrote(cs, id) && PassesOver(store, mem, cs, k, 0, Row(store, id)))
    || exists i :: WroteAt(cs, i, id) && PassesOver(store, mem, cs, k, i + 1, Left(store, mem, cs, i))
  }

  lemma OverlapSymmetric(p: Program, q: Program)
    ensures Overlap(p, q) <==> Overlap(q, p)
  {}

  lemma StoredTimes(p: Program)
    ensures Timed(Stored(p)) ==> Timed(p) && Start(p) != 0
    ensures SameTime(Stored(p), p) && Stored(p).id == p.id
  {}

  /** A change that takes no new place leaves a row with the stored row's time, or none with a time. */
  lemma LeavesOldTime(store: Store, mem: Memory, cs: seq<Change>, i: int)
    requires 0 <= i < |cs| && Proper(store, cs) && (Undisturbing(store, cs[i].row) || BlockedAt(store, mem, cs, i))
    ensures var left := Left(store, mem, cs, i);
            left.Some? && Timed(Stored(left.value)) ==>
              left.value.id == cs[i].row.id && cs[i].row.id in store && SameTime(store[cs[i].row.id], left.value)
              && Timed(store[cs[i].row.id]) && HoldsPlace(store, mem, cs, i)
  {
    assert OwnId(store, cs[i].row.id);
    var left := Left(store, mem, cs, i);
    if left.Some? { StoredTimes(left.value); }
  }

  /** Two rows with the stored rows' times do not overlap. */
  lemma OldTimesDisjoint(store: Store, a: Program, b: Program)
    requires NoOverlaps(store) && a.id in store && b.id in store && a.id != b.id && SameTime(store[a.id], a)
             && SameTime(store[b.id], b)
    requires Timed(store[a.id]) && Timed(store[b.id])
    ensures !Overlap(Stored(a), Stored(b))
  {
    assert Disjoint(store, a.id, b.id);
  }

  /** A change that does take a new place leaves nothing that stood there, unless it passes over a row on air. */
  lemma NewPlaceDisplaces(store: Store, mem: Memory, cs: seq<Change>, k: int, p: Program)
    requires TakesPlace(store, mem, cs, k) && (Flagged(p) ==> cs[k].onAir)
    requires p.id != cs[k].row.id && Overlap(Stored(p), Stored(cs[k].row))
    ensures DisplacedAt(store, mem, cs, k, p)
  {
    StoredTimes(p);
    StoredTimes(cs[k].row);
  }

  lemma LeftId(store: Store, mem: Memory, cs: seq<Change>, k: int)
    requires Proper(store, cs) && 0 <= k < |cs|
    ensures Left(store, mem, cs, k).Some? ==> Left(store, mem, cs, k).value.id == cs[k].row.id
  {
    assert OwnId(store, cs[k].row.id);
  }

  lemma WrittenPair(store: Store, mem: Memory, cs: seq<Change>, i: int, k: int)
    requires Proper(store, cs) && StoreOk(store) && NoOverlaps(store) && 0 <= i < k < |cs|
    requires !Stuck(store, mem, cs, i, k) && !Ignored(store, mem, cs, k, cs[i].row.id)
    ensures var after := Written(store, mem, cs);
            Disjoint(after, cs[i].row.id, cs[k].row.id) && Disjoint(after, cs[k].row.id, cs[i].row.id)
  {
    assert WroteAt(cs, i, cs[i].row.id) && WroteAt(cs, k, cs[k].row.id);
    WriteResult(store, mem, cs, cs[i].row.id);
    WriteResult(store, mem, cs, cs[k].row.id);
    LeftId(store, mem, cs, i);
    LeftId(store, mem, cs, k);
    var a, b := Final(store, mem, cs, i + 1, Left(store, mem, cs, i)),
        Final(store, mem, cs, k + 1, Left(store, mem, cs, k));
    if a.Some? && b.Some? {
      OverlapSymmetric(Stored(a.value), Stored(b.value));
      if Overlap(Stored(a.value), Stored(b.value)) {
        if Undisturbing(store, cs[k].row) || BlockedAt(store, mem, cs, k) {
          LeavesOldTime(store, mem, cs, k);
        } else {
          assert !PassesOver(store, mem, cs, k, i + 1, Left(store, mem, cs, i));
          NewPlaceDisplaces(store, mem, cs, k, a.value);
        }
      }
    }
  }

  lemma MixedPair(store: Store, mem: Memory, cs: seq<Change>, i: int, id: Id)
    requires Proper(store, cs) && StoreOk(store) && NoOverlaps(store) && 0 <= i < |cs| && !Wrote(cs, id)
    requires !Ignored(store, mem, cs, i, id)
    ensures var after := Written(store, mem, cs);
            Disjoint(after, cs[i].row.id, id) && Disjoint(after, id, cs[i].row.id)
  {
    assert WroteAt(cs, i, cs[i].row.id);
    WriteResult(store, mem, cs, cs[i].row.id);
    WriteResult(store, mem, cs, id);
    LeftId(store, mem, cs, i);
    assert OwnId(store, id);
    var a := Final(store, mem, cs, i + 1, Left(store, mem, cs, i));
    if id in store && a.Some? && id != cs[i].row.id && !Displaced(store, mem, cs, 0, Row(store, id)) {
      var q := store[id];
      OverlapSymmetric(Stored(a.value), q);
      if Overlap(Stored(a.value), q) {
        if Undisturbing(store, cs[i].row) || BlockedAt(store, mem, cs, i) {
          LeavesOldTime(store, mem, cs, i);
          OldTimesDisjoint(store, a.value, q);
        } else {
          OverlapSymmetric(Stored(cs[i].row), q);
          NewPlaceDisplaces(store, mem, cs, i, q);
        }
      }
    }
  }

  lemma StorePair(store: Store, mem: Memory, cs: seq<Change>, a: Id, b: Id)
    requires Proper(store, cs) && StoreOk(store) && NoOverlaps(store) && !Wrote(cs, a) && !Wrote(cs, b)
    ensures Disjoint(Written(store, mem, cs), a, b)
  {
    WriteResult(store, mem, cs, a);
    WriteResult(store, mem, cs, b);
    assert Disjoint(store, a, b);
  }

  lemma AnyPair(store: Store, mem: Memory, cs: seq<Change>, a: Id, b: Id)
    requires Proper(store, cs) && StoreOk(store) && NoOverlaps(store) && a != b
    requires (forall i, k :: !Stuck(store, mem, cs, i, k)) && forall k, id :: !Ignored(store, mem, cs, k, id)
    ensures Disjoint(Written(store, mem, cs), a, b)
  {
    if Wrote(cs, a) {
      var i :| WroteAt(cs, i, a);
      if Wrote(cs, b) {
        var k :| WroteAt(cs, k, b);
        if i < k { WrittenPair(store, mem, cs, i, k); } else { WrittenPair(store, mem, cs, k, i); }
      } else {
        MixedPair(store, mem, cs, i, b);
      }
    } else if Wrote(cs, b) {
      var k :| WroteAt(cs, k, b);
      MixedPair(store, mem, cs, k, a);
    } else {
      StorePair(store, mem, cs, a, b);
    }
  }

  /** From a store without overlaps, changes leave none exactly when no stuck pair is among them and none takes a
      place over a row on air. */
  lemma OverlapsExactlyWhenStuck(store: Store, mem: Memory, cs: seq<Change>)
    requires Proper(store, cs) && StoreOk(store) && NoOverlaps(store)
    ensures NoOverlaps(Written(store, mem, cs))
            <==> (forall i, k :: !Stuck(store, mem, cs, i, k)) && forall k, id :: !Ignored(store, mem, cs, k, id)
  {
    if i, k :| Stuck(store, mem, cs, i, k) {
      StuckOverlaps(store, mem, cs, i, k);
    } else if k, id :| Ignored(store, mem, cs, k, id) {
      IgnoredOverlaps(store, mem, cs, k, id);
    } else {
      forall a, b ensures Disjoint(Written(store, mem, cs), a, b) {
        if a != b { AnyPair(store, mem, cs, a, b); }
      }
    }
  }

  lemma StuckOverlaps(store: Store, mem: Memory, cs: seq<Change>, i: int, k: int)
    requires Proper(store, cs) && StoreOk(store) && Stuck(store, mem, cs, i, k)
    ensures !Disjoint(Written(store, mem, cs), cs[i].row.id, cs[k].row.id)
  {
    assert WroteAt(cs, i, cs[i].row.id) && WroteAt(cs, k, cs[k].row.id);
    WriteResult(store, mem, cs, cs[i].row.id);
    WriteResult(store, mem, cs, cs[k].row.id);
  }

  lemma IgnoredOverlaps(store: Store, mem: Memory, cs: seq<Change>, k: int, id: Id)
    requires Proper(store, cs) && StoreOk(store) && Ignored(store, mem, cs, k, id)
    ensures 0 <= k < |cs| && !Disjoint(Written(store, mem, cs), id, cs[k].row.id)
  {
    assert WroteAt(cs, k, cs[k].row.id);
    WriteResult(store, mem, cs, id);
    WriteResult(store, mem, cs, cs[k].row.id);
    if i :| WroteAt(cs, i, id) && PassesOver(store, mem, cs, k, i + 1, Left(store, mem, cs, i)) {
      assert i < k && cs[i].row.id != cs[k].row.id;
    }
  }
}
