/**
 What announcements do to downloads under way (ts/dsmcc_carousel.go): a module is evicted for those allocated later, so
 repeating an announcement whose modules do not fit together starts downloads over for ever.
 */
module CarouselAnnounce {
  import opened CarouselModel
  import opened CarouselRoom
  import opened Carousel

  // -------------------------------------------------------------- one allocation

  /** An allocation leaves an incomplete module as it was exactly when the incomplete ones not older than it and the new
      one fit into the budget together, and otherwise evicts it. */
  lemma AllocationSparesExactly(limits: Limits, bound: nat, p: Point, downloadId: nat, blockSize: nat, info: Info,
                                id: nat)
    requires Accepts(limits, p.modules, downloadId, blockSize, info) && !Current(p.modules, downloadId, blockSize, info)
    requires id in p.modules && id != info.id && !p.modules[id].completed
    ensures var gone := p.modules - {info.id};
            var q := AfterInfo(limits, bound, p, downloadId, blockSize, info);
            && (id in q.modules
                <==> Younger(gone, false, -1, p.modules[id].generation, bound) + info.size <= limits.maxInFlight)
            && (id in q.modules ==> q.modules[id] == p.modules[id])
  {}

  /** A module is started over only under a newer generation. */
  ghost predicate KeptOrNew(p: Point, q: Point, id: nat) {
    q.generation >= p.generation &&
    (id in q.modules ==> q.modules[id].generation > p.generation || (id in p.modules && q.modules[id] == p.modules[id]))
  }

  lemma {:induction false} InfosKeep(limits: Limits, bound: nat, p: Point, downloadId: nat, blockSize: nat,
                                     infos: seq<Info>, id: nat)
    ensures KeptOrNew(p, AfterInfos(limits, bound, p, downloadId, blockSize, infos), id)
  {
    if infos != [] { InfosKeep(limits, bound, p, downloadId, blockSize, infos[..|infos| - 1], id); }
  }

  // ---------------------------------------------------------- a whole announcement

  /** The entry names a module as it is held. */
  predicate Keeps(limits: Limits, ms: Modules, dii: Dii, info: Info) {
    !Refused(limits, dii.blockSize, info) && Current(ms, dii.downloadId, dii.blockSize, info)
  }

  /** Entry `i`, or an earlier one of the same id, does not. */
  ghost predicate Renews(limits: Limits, ms: Modules, dii: Dii, i: nat)
    requires i < |dii.modules|
  {
    exists j | 0 <= j <= i :: dii.modules[j].id == dii.modules[i].id && !Keeps(limits, ms, dii, dii.modules[j])
  }

  /** The bytes that entry `i` may have to be given. */
  ghost function Cost(limits: Limits, ms: Modules, dii: Dii, i: nat): nat
    requires i < |dii.modules|
  {
    var info := dii.modules[i];
    if !Renews(limits, ms, dii, i) || Refused(limits, dii.blockSize, info) || info.size > limits.maxInFlight then 0
    else info.size
  }

  ghost function Demand(limits: Limits, ms: Modules, dii: Dii, n: nat): nat
    requires n <= |dii.modules|
  {
    if n == 0 then 0 else Demand(limits, ms, dii, n - 1) + Cost(limits, ms, dii, n - 1)
  }

  /** Nothing is to be allocated, or all of it fits beside what is in flight. */
  ghost predicate Fits(limits: Limits, bound: nat, ms: Modules, dii: Dii) {
    var demand := Demand(limits, ms, dii, |dii.modules|);
    demand == 0 || Total(ms, false, bound) + demand <= limits.maxInFlight
  }

  /** All entries of this id up to `n` name the module as it is held. */
  ghost predicate Untouched(limits: Limits, ms: Modules, dii: Dii, n: nat, id: nat)
    requires n <= |dii.modules|
  {
    forall j | 0 <= j < n && dii.modules[j].id == id :: Keeps(limits, ms, dii, dii.modules[j])
  }

  ghost function At(limits: Limits, bound: nat, p: Point, dii: Dii, n: nat): Point
    requires n <= |dii.modules|
  {
    AfterInfos(limits, bound, p, dii.downloadId, dii.blockSize, dii.modules[..n])
  }

  lemma AtNext(limits: Limits, bound: nat, p: Point, dii: Dii, i: nat)
    requires i < |dii.modules|
    ensures At(limits, bound, p, dii, i + 1)
         == AfterInfo(limits, bound, At(limits, bound, p, dii, i), dii.downloadId, dii.blockSize, dii.modules[i])
  {
    NextInfo(limits, bound, p, dii.downloadId, dii.blockSize, dii.modules, i);
  }

  lemma {:induction false} DemandGrows(limits: Limits, ms: Modules, dii: Dii, i: nat, n: nat)
    requires i <= n <= |dii.modules|
    ensures Demand(limits, ms, dii, i) <= Demand(limits, ms, dii, n)
  {
    if i < n { DemandGrows(limits, ms, dii, i, n - 1); }
  }

  /** So far nothing has been evicted. */
  ghost predicate Spared(limits: Limits, bound: nat, p: Point, dii: Dii, i: nat, q: Point)
    requires i <= |dii.modules|
  {
    && (forall id | id in p.modules && Untouched(limits, p.modules, dii, i, id) ::
           id in q.modules && q.modules[id] == p.modules[id])
    && Total(q.modules, false, bound) <= Total(p.modules, false, bound) + Demand(limits, p.modules, dii, i)
  }

  lemma SparedUnchanged(limits: Limits, bound: nat, p: Point, dii: Dii, i: nat, q: Point)
    requires i < |dii.modules| && Spared(limits, bound, p, dii, i, q)
    ensures Spared(limits, bound, p, dii, i + 1, q)
  {
    forall id | id in p.modules && Untouched(limits, p.modules, dii, i + 1, id)
      ensures id in q.modules && q.modules[id] == p.modules[id]
    {
      assert Untouched(limits, p.modules, dii, i, id);
    }
  }

  /** An entry that takes a module away leaves the others. */
  lemma SparedDropped(limits: Limits, bound: nat, p: Point, dii: Dii, i: nat, q: Point)
    requires i < |dii.modules| && Spared(limits, bound, p, dii, i, q) && Renews(limits, p.modules, dii, i)
    ensures Spared(limits, bound, p, dii, i + 1, Point(q.modules - {dii.modules[i].id}, q.generation))
    ensures Total(q.modules - {dii.modules[i].id}, false, bound)
            <= Total(p.modules, false, bound) + Demand(limits, p.modules, dii, i)
  {
    var gone := q.modules - {dii.modules[i].id};
    TotalLe(gone, q.modules, false, bound);
    forall id | id in p.modules && Untouched(limits, p.modules, dii, i + 1, id)
      ensures id in gone && gone[id] == p.modules[id]
    {
      assert Untouched(limits, p.modules, dii, i, id);
      var j :| 0 <= j <= i && dii.modules[j].id == dii.modules[i].id && !Keeps(limits, p.modules, dii, dii.modules[j]);
      assert id != dii.modules[i].id;
    }
  }

  lemma SparedStep(limits: Limits, bound: nat, p: Point, dii: Dii, i: nat, q: Point)
    requires i < |dii.modules| && dii.modules[i].id < bound && Fits(limits, bound, p.modules, dii)
    requires Spared(limits, bound, p, dii, i, q)
    ensures Spared(limits, bound, p, dii, i + 1,
            AfterInfo(limits, bound, q, dii.downloadId, dii.blockSize, dii.modules[i]))
  {
    var info := dii.modules[i];
    if !Renews(limits, p.modules, dii, i) {
      assert Keeps(limits, p.modules, dii, info) && Untouched(limits, p.modules, dii, i, info.id);
      SparedUnchanged(limits, bound, p, dii, i, q);
    } else if Accepts(limits, q.modules, dii.downloadId, dii.blockSize, info) {
      if Current(q.modules, dii.downloadId, dii.blockSize, info) {
        SparedUnchanged(limits, bound, p, dii, i, q);
      } else {
        SparedAllocation(limits, bound, p, dii, i, q);
      }
    } else {
      SparedDropped(limits, bound, p, dii, i, q);
    }
  }

  lemma SparedAllocation(limits: Limits, bound: nat, p: Point, dii: Dii, i: nat, q: Point)
    requires i < |dii.modules| && dii.modules[i].id < bound && Fits(limits, bound, p.modules, dii)
    requires Spared(limits, bound, p, dii, i, q) && Renews(limits, p.modules, dii, i)
    requires Accepts(limits, q.modules, dii.downloadId, dii.blockSize, dii.modules[i])
    requires !Current(q.modules, dii.downloadId, dii.blockSize, dii.modules[i])
    ensures Spared(limits, bound, p, dii, i + 1,
            AfterInfo(limits, bound, q, dii.downloadId, dii.blockSize, dii.modules[i]))
  {
    var info := dii.modules[i];
    var gone := q.modules - {info.id};
    SparedDropped(limits, bound, p, dii, i, q);
    DemandGrows(limits, p.modules, dii, i + 1, |dii.modules|);
    TotalIsYounger(gone, false, -1, bound);
    KeptAll(gone, false, -1, limits.maxInFlight - info.size, bound);
    TotalUpdate(gone, info.id, NewModule(info, dii.downloadId, dii.blockSize, q.generation + 1), false, bound);
  }

  lemma {:induction false} SparedPrefix(limits: Limits, bound: nat, p: Point, dii: Dii, i: nat)
    requires i <= |dii.modules| && Fits(limits, bound, p.modules, dii) && forall m | m in dii.modules :: m.id < bound
    ensures Spared(limits, bound, p, dii, i, At(limits, bound, p, dii, i))
  {
    if i > 0 {
      SparedPrefix(limits, bound, p, dii, i - 1);
      AtNext(limits, bound, p, dii, i - 1);
      assert dii.modules[i - 1] in dii.modules;
      SparedStep(limits, bound, p, dii, i - 1, At(limits, bound, p, dii, i - 1));
    }
  }

  /** When what is in flight and what is to be allocated fit together, an announcement leaves every module alone that it
      names as it is. */
  lemma FitsSpares(limits: Limits, bound: nat, p: Point, dii: Dii, id: nat)
    requires Fits(limits, bound, p.modules, dii) && (forall m | m in dii.modules :: m.id < bound)
    requires id in p.modules && id in Ids(dii.modules) && Untouched(limits, p.modules, dii, |dii.modules|, id)
    ensures id in AfterDii(limits, bound, p, dii).modules
            && AfterDii(limits, bound, p, dii).modules[id] == p.modules[id]
  {
    SparedPrefix(limits, bound, p, dii, |dii.modules|);
    assert dii.modules[..|dii.modules|] == dii.modules;
  }

  // -------------------------------------------------------- repeated announcements

  ghost predicate DistinctModules(dii: Dii) {
    forall i, j | 0 <= i < j < |dii.modules| :: dii.modules[i].id != dii.modules[j].id
  }

  /** Each module could be allocated by itself. */
  ghost predicate Allocatable(limits: Limits, dii: Dii) {
    forall m | m in dii.modules :: !Refused(limits, dii.blockSize, m) && m.size <= limits.maxInFlight
  }

  /** An announcement that comes again: no id twice, and what is held of it is as it says. */
  ghost predicate Repeats(limits: Limits, ms: Modules, dii: Dii) {
    && DistinctModules(dii) && Allocatable(limits, dii)
    && forall m | m in dii.modules && m.id in ms :: Current(ms, dii.downloadId, dii.blockSize, m)
  }

  /** An announced module whose download is under way. */
  ghost predicate Loading(p: Point, dii: Dii, id: nat) {
    id in Ids(dii.modules) && id in p.modules && !p.modules[id].completed
  }

  /** The announcement leaves every such module as it was. */
  ghost predicate LosesNothing(limits: Limits, bound: nat, p: Point, dii: Dii) {
    forall id | Loading(p, dii, id) ::
      id in AfterDii(limits, bound, p, dii).modules && AfterDii(limits, bound, p, dii).modules[id] == p.modules[id]
  }

  lemma CostIs(limits: Limits, ms: Modules, dii: Dii, i: nat)
    requires Repeats(limits, ms, dii) && i < |dii.modules|
    ensures Cost(limits, ms, dii, i) == if dii.modules[i].id in ms then 0 else dii.modules[i].size
    ensures dii.modules[i].size > 0
  {
    var info := dii.modules[i];
    assert info in dii.modules && !Refused(limits, dii.blockSize, info);
    if info.id in ms {
      assert Keeps(limits, ms, dii, info);
      forall j | 0 <= j <= i && dii.modules[j].id == info.id ensures j == i {}
    } else {
      assert !Keeps(limits, ms, dii, dii.modules[i]);
    }
  }

  /** After `i` entries everything not older than `g` is there, with what has been allocated. */
  ghost predicate Ahead(limits: Limits, bound: nat, p: Point, dii: Dii, i: nat, q: Point, g: nat)
    requires i <= |dii.modules|
  {
    && q.generation >= p.generation
    && (forall x | x in p.modules && (p.modules[x].completed || p.modules[x].generation >= g) ::
           x in q.modules && q.modules[x] == p.modules[x])
    && (forall x | x in q.modules :: x in p.modules || x in Ids(dii.modules[..i]))
    && Younger(q.modules, false, -1, g, bound)
       == Younger(p.modules, false, -1, g, bound) + Demand(limits, p.modules, dii, i)
  }

  /** Module `o` is not what it was. */
  ghost predicate Lost(p: Point, q: Point, o: nat) { o in q.modules ==> q.modules[o].generation > p.generation }

  /** The oldest module under way, of generation `g`, and the announcement that comes again. */
  ghost predicate OldestLoading(limits: Limits, bound: nat, p: Point, dii: Dii, o: nat, g: nat) {
    && Repeats(limits, p.modules, dii) && (forall m | m in dii.modules :: m.id < bound)
    && Loading(p, dii, o) && p.modules[o].generation == g <= p.generation
    && forall id | Loading(p, dii, id) :: p.modules[id].generation >= g
  }

  /** What has been allocated so far fits beside the modules not older than `g`. */
  ghost predicate Room(limits: Limits, bound: nat, p: Point, dii: Dii, i: nat, g: nat)
    requires i <= |dii.modules|
  {
    var demand := Demand(limits, p.modules, dii, i);
    demand == 0 || Younger(p.modules, false, -1, g, bound) + demand <= limits.maxInFlight
  }

  lemma NotYetThere(p: Point, dii: Dii, i: nat, q: Point)
    requires i < |dii.modules| && DistinctModules(dii) && dii.modules[i].id !in p.modules
    requires forall x | x in q.modules :: x in p.modules || x in Ids(dii.modules[..i])
    ensures dii.modules[i].id !in q.modules && q.modules - {dii.modules[i].id} == q.modules
  {
    forall m | m in dii.modules[..i] ensures m.id != dii.modules[i].id {
      var j :| 0 <= j < i && dii.modules[j] == m;
    }
  }

  lemma IdsNext(infos: seq<Info>, i: nat)
    requires i < |infos|
    ensures Ids(infos[..i + 1]) == Ids(infos[..i]) + {infos[i].id}
  {
    assert infos[..i + 1] == infos[..i] + [infos[i]];
  }

  /** What is not older than `g` stays when it fits, and the new module adds its size. */
  lemma RoomKeeps(ms: Modules, g: nat, room: int, id: nat, m: Module, bound: nat)
    requires Younger(ms, false, -1, g, bound) <= room && id !in ms && id < bound && m.generation >= g
    ensures var kept := Kept(ms, false, -1, room, bound);
            && (forall x | x in ms && (ms[x].completed || ms[x].generation >= g) :: x in kept && kept[x] == ms[x])
            && Younger(kept[id := m], false, -1, g, bound) == Younger(ms, false, -1, g, bound) + Load(m, false)
  {
    var kept := Kept(ms, false, -1, room, bound);
    forall x | x in ms && ms[x].generation >= g ensures x in kept {
      YoungerFalls(ms, false, -1, g, ms[x].generation, bound);
    }
    YoungerLe(kept, ms, false, -1, g, g, bound);
    YoungerLe(ms, kept, false, -1, g, g, bound);
    YoungerPut(kept, id, m, false, -1, g, bound);
  }

  lemma AllocatedIs(limits: Limits, bound: nat, q: Point, dii: Dii, info: Info)
    requires Allocatable(limits, dii) && info in dii.modules && info.id !in q.modules
    ensures var made := NewModule(info, dii.downloadId, dii.blockSize, q.generation + 1);
            AfterInfo(limits, bound, q, dii.downloadId, dii.blockSize, info)
            == Point(Kept(q.modules, false, -1, limits.maxInFlight - info.size, bound)[info.id := made],
                q.generation + 1)
  {
    assert q.modules - {info.id} == q.modules;
  }

  lemma AheadNext(limits: Limits, bound: nat, p: Point, dii: Dii, i: nat, q: Point, q': Point, g: nat)
    requires i < |dii.modules| && Ahead(limits, bound, p, dii, i, q, g) && q'.generation >= q.generation
    requires forall x | x in q.modules && (q.modules[x].completed || q.modules[x].generation >= g) ::
               x in q'.modules && q'.modules[x] == q.modules[x]
    requires forall x | x in q'.modules :: x in q.modules || x == dii.modules[i].id
    requires Younger(q'.modules, false, -1, g, bound)
             == Younger(q.modules, false, -1, g, bound) + Cost(limits, p.modules, dii, i)
    ensures Ahead(limits, bound, p, dii, i + 1, q', g)
  {
    IdsNext(dii.modules, i);
  }

  lemma AllocationKeepsAhead(limits: Limits, bound: nat, p: Point, dii: Dii, i: nat, q: Point, g: nat)
    requires i < |dii.modules| && Ahead(limits, bound, p, dii, i, q, g) && Allocatable(limits, dii)
             && dii.modules[i] in dii.modules
    requires dii.modules[i].id !in q.modules && dii.modules[i].id < bound && g <= q.generation
    requires Cost(limits, p.modules, dii, i) == dii.modules[i].size
    requires Younger(q.modules, false, -1, g, bound) + dii.modules[i].size <= limits.maxInFlight
    ensures Ahead(limits, bound, p, dii, i + 1,
            AfterInfo(limits, bound, q, dii.downloadId, dii.blockSize, dii.modules[i]), g)
  {
    var info := dii.modules[i];
    AllocatedIs(limits, bound, q, dii, info);
    var made := NewModule(info, dii.downloadId, dii.blockSize, q.generation + 1);
    var kept := Kept(q.modules, false, -1, limits.maxInFlight - info.size, bound);
    RoomKeeps(q.modules, g, limits.maxInFlight - info.size, info.id, made, bound);
    AheadNext(limits, bound, p, dii, i, q, Point(kept[info.id := made], q.generation + 1), g);
  }

  /** An allocation with room evicts only what is older. */
  lemma AheadAllocated(limits: Limits, bound: nat, p: Point, dii: Dii, i: nat, q: Point, o: nat, g: nat)
    requires OldestLoading(limits, bound, p, dii, o, g) && i < |dii.modules| && Ahead(limits, bound, p, dii, i, q, g)
    requires dii.modules[i].id !in p.modules
    requires Younger(q.modules, false, -1, g, bound) + dii.modules[i].size <= limits.maxInFlight
    ensures Ahead(limits, bound, p, dii, i + 1,
            AfterInfo(limits, bound, q, dii.downloadId, dii.blockSize, dii.modules[i]), g)
  {
    assert dii.modules[i] in dii.modules;
    NotYetThere(p, dii, i, q);
    CostIs(limits, p.modules, dii, i);
    AllocationKeepsAhead(limits, bound, p, dii, i, q, g);
  }

  /** One without room takes the oldest module. */
  lemma OldestTaken(limits: Limits, bound: nat, p: Point, dii: Dii, i: nat, q: Point, o: nat, g: nat)
    requires OldestLoading(limits, bound, p, dii, o, g) && i < |dii.modules| && Ahead(limits, bound, p, dii, i, q, g)
    requires dii.modules[i].id !in p.modules
    requires Younger(q.modules, false, -1, g, bound) + dii.modules[i].size > limits.maxInFlight
    ensures o !in AfterInfo(limits, bound, q, dii.downloadId, dii.blockSize, dii.modules[i]).modules
  {
    var info := dii.modules[i];
    assert info in dii.modules && Accepts(limits, q.modules, dii.downloadId, dii.blockSize, info);
    NotYetThere(p, dii, i, q);
    assert q.modules[o] == p.modules[o];
  }

  lemma HeldStays(limits: Limits, bound: nat, p: Point, dii: Dii, q: Point, info: Info, o: nat, g: nat)
    requires OldestLoading(limits, bound, p, dii, o, g) && info in dii.modules && info.id in p.modules
    requires p.modules[info.id].completed || p.modules[info.id].generation >= g ==>
               info.id in q.modules && q.modules[info.id] == p.modules[info.id]
    ensures AfterInfo(limits, bound, q, dii.downloadId, dii.blockSize, info) == q
  {
    assert info.id in Ids(dii.modules);
    assert p.modules[info.id].completed || Loading(p, dii, info.id);
  }

  lemma AheadHeld(limits: Limits, bound: nat, p: Point, dii: Dii, i: nat, q: Point, g: nat)
    requires Repeats(limits, p.modules, dii) && i < |dii.modules| && Ahead(limits, bound, p, dii, i, q, g)
    requires dii.modules[i].id in p.modules
    ensures Ahead(limits, bound, p, dii, i + 1, q, g) && Cost(limits, p.modules, dii, i) == 0
  {
    CostIs(limits, p.modules, dii, i);
    IdsNext(dii.modules, i);
  }

  lemma LostStays(limits: Limits, bound: nat, p: Point, q: Point, downloadId: nat, blockSize: nat, info: Info, o: nat)
    requires Lost(p, q, o) && q.generation >= p.generation
    ensures Lost(p, AfterInfo(limits, bound, q, downloadId, blockSize, info), o)
  {}

  /** What the first `i` entries have decided. */
  ghost predicate Decided(limits: Limits, bound: nat, p: Point, dii: Dii, i: nat, q: Point, o: nat, g: nat)
    requires i <= |dii.modules|
  {
    if Room(limits, bound, p, dii, i, g) then Ahead(limits, bound, p, dii, i, q, g) else Lost(p, q, o)
  }

  lemma DecidedNext(limits: Limits, bound: nat, p: Point, dii: Dii, i: nat, q: Point, o: nat, g: nat)
    requires OldestLoading(limits, bound, p, dii, o, g) && i < |dii.modules|
    requires Decided(limits, bound, p, dii, i, q, o, g) && q.generation >= p.generation
    ensures Decided(limits, bound, p, dii, i + 1,
            AfterInfo(limits, bound, q, dii.downloadId, dii.blockSize, dii.modules[i]), o, g)
  {
    CostIs(limits, p.modules, dii, i);
    if !Room(limits, bound, p, dii, i, g) {
      LostStays(limits, bound, p, q, dii.downloadId, dii.blockSize, dii.modules[i], o);
    } else if dii.modules[i].id in p.modules {
      assert dii.modules[i] in dii.modules;
      HeldStays(limits, bound, p, dii, q, dii.modules[i], o, g);
      AheadHeld(limits, bound, p, dii, i, q, g);
    } else if Younger(q.modules, false, -1, g, bound) + dii.modules[i].size <= limits.maxInFlight {
      AheadAllocated(limits, bound, p, dii, i, q, o, g);
    } else {
      OldestTaken(limits, bound, p, dii, i, q, o, g);
    }
  }

  lemma DecidedStart(limits: Limits, bound: nat, p: Point, dii: Dii, o: nat, g: nat)
    ensures At(limits, bound, p, dii, 0) == p && Decided(limits, bound, p, dii, 0, p, o, g)
  {
    assert dii.modules[..0] == [];
  }

  lemma AtGeneration(limits: Limits, bound: nat, p: Point, dii: Dii, i: nat)
    requires i <= |dii.modules|
    ensures At(limits, bound, p, dii, i).generation >= p.generation
  {
    InfosKeep(limits, bound, p, dii.downloadId, dii.blockSize, dii.modules[..i], 0);
  }

  /** Along the entries: while there is room all is there, and from where there is none the oldest module is lost. */
  lemma {:induction false} OldestDecides(limits: Limits, bound: nat, p: Point, dii: Dii, i: nat, o: nat,
                                         g: nat) returns (q: Point)
    requires OldestLoading(limits, bound, p, dii, o, g) && i <= |dii.modules|
    ensures q == At(limits, bound, p, dii, i) && Decided(limits, bound, p, dii, i, q, o, g)
  {
    if i == 0 {
      DecidedStart(limits, bound, p, dii, o, g);
      q := p;
    } else {
      q := OldestDecides(limits, bound, p, dii, i - 1, o, g);
      AtGeneration(limits, bound, p, dii, i - 1);
      DecidedNext(limits, bound, p, dii, i - 1, q, o, g);
      AtNext(limits, bound, p, dii, i - 1);
      q := AfterInfo(limits, bound, q, dii.downloadId, dii.blockSize, dii.modules[i - 1]);
    }
  }

  /** Every module under way fits with all that is not older and all that is to be allocated. */
  ghost predicate AllFit(limits: Limits, bound: nat, p: Point, dii: Dii) {
    forall id | Loading(p, dii, id) :: Room(limits, bound, p, dii, |dii.modules|, p.modules[id].generation)
  }

  /** An announcement that comes again loses no progress exactly when each module under way fits together with the
      incomplete ones not older than it and with those that are missing, or none is missing. */
  lemma LosesNothingExactly(limits: Limits, bound: nat, p: Point, dii: Dii)
    requires Sane(p, bound) && Repeats(limits, p.modules, dii) && forall m | m in dii.modules :: m.id < bound
    ensures LosesNothing(limits, bound, p, dii) <==> AllFit(limits, bound, p, dii)
  {
    var n := |dii.modules|;
    var ids := set id | id in p.modules && Loading(p, dii, id);
    if ids == {} {
      forall id ensures !Loading(p, dii, id) { assert id !in ids; }
    } else {
      var o := SomeOldest(p.modules, ids);
      var g := p.modules[o].generation;
      forall id | Loading(p, dii, id) ensures p.modules[id].generation >= g { assert id in ids; }
      assert EntryOk(p.modules, p.generation, bound, o);
      var q := OldestDecides(limits, bound, p, dii, n, o, g);
      assert dii.modules[..n] == dii.modules;
      forall id | Loading(p, dii, id) && Room(limits, bound, p, dii, n, g)
        ensures Room(limits, bound, p, dii, n, p.modules[id].generation)
      {
        YoungerFalls(p.modules, false, -1, g, p.modules[id].generation, bound);
      }
    }
  }

  // ------------------------------------------------------------- sound carousels

  lemma SaneFewer(p: Point, ms: Modules, bound: nat)
    requires Sane(p, bound) && forall id | id in ms :: id in p.modules && ms[id] == p.modules[id]
    ensures Sane(Point(ms, p.generation), bound)
  {
    forall id ensures EntryOk(ms, p.generation, bound, id) { assert EntryOk(p.modules, p.generation, bound, id); }
    forall a, b ensures Apart(ms, a, b) { assert Apart(p.modules, a, b); }
  }

  /** A module allocated last is well-formed and the youngest. */
  lemma SaneNew(p: Point, info: Info, downloadId: nat, blockSize: nat, bound: nat)
    requires Sane(p, bound) && info.size > 0 && blockSize > 0 && info.id < bound
    ensures Sane(Point(p.modules[info.id := NewModule(info, downloadId, blockSize, p.generation + 1)],
            p.generation + 1), bound)
  {
    var m := NewModule(info, downloadId, blockSize, p.generation + 1);
    NewModuleOk(info, downloadId, blockSize, p.generation + 1);
    NewGeneration(p.modules, p.generation, p.generation + 1, bound);
    PutKeeps(p.modules, p.modules[info.id := m], p.generation + 1, bound, info.id, m);
  }

  lemma SaneInfo(limits: Limits, bound: nat, p: Point, downloadId: nat, blockSize: nat, info: Info)
    requires Sane(p, bound) && info.id < bound
    ensures Sane(AfterInfo(limits, bound, p, downloadId, blockSize, info), bound)
  {
    var gone := p.modules - {info.id};
    SaneFewer(p, gone, bound);
    if Accepts(limits, p.modules, downloadId, blockSize, info) && !Current(p.modules, downloadId, blockSize, info) {
      var kept := Kept(gone, false, -1, limits.maxInFlight - info.size, bound);
      SaneFewer(p, kept, bound);
      SaneNew(Point(kept, p.generation), info, downloadId, blockSize, bound);
    }
  }

  lemma {:induction false} SaneInfos(limits: Limits, bound: nat, p: Point, downloadId: nat, blockSize: nat,
                                     infos: seq<Info>)
    requires Sane(p, bound) && forall m | m in infos :: m.id < bound
    ensures Sane(AfterInfos(limits, bound, p, downloadId, blockSize, infos), bound)
  {
    if infos != [] {
      var n := |infos| - 1;
      SaneInfos(limits, bound, p, downloadId, blockSize, infos[..n]);
      assert infos[n] in infos;
      SaneInfo(limits, bound, AfterInfos(limits, bound, p, downloadId, blockSize, infos[..n]), downloadId, blockSize,
          infos[n]);
    }
  }

  lemma SaneDii(limits: Limits, bound: nat, p: Point, dii: Dii)
    requires Sane(p, bound) && forall m | m in dii.modules :: m.id < bound
    ensures Sane(AfterDii(limits, bound, p, dii), bound)
  {
    SaneInfos(limits, bound, p, dii.downloadId, dii.blockSize, dii.modules);
    SaneFewer(AfterInfos(limits, bound, p, dii.downloadId, dii.blockSize, dii.modules),
        AfterDii(limits, bound, p, dii).modules, bound);
  }

  // ----------------------------------------------- announcements that fit as a whole

  function SizeSum(infos: seq<Info>): nat {
    if infos == [] then 0 else SizeSum(infos[..|infos| - 1]) + infos[|infos| - 1].size
  }

  lemma SizeSumNext(infos: seq<Info>, k: nat)
    requires k < |infos|
    ensures SizeSum(infos[..k + 1]) == SizeSum(infos[..k]) + infos[k].size
  {
    var next := infos[..k + 1];
    assert next[..k] == infos[..k] && next[k] == infos[k];
  }

  /** Everything held is announced, as it is held. */
  ghost predicate Belongs(ms: Modules, dii: Dii) {
    forall id | id in ms :: exists m :: m in dii.modules && m.id == id && Current(ms, dii.downloadId, dii.blockSize, m)
  }

  lemma BelongsRepeats(limits: Limits, ms: Modules, dii: Dii)
    requires Belongs(ms, dii) && DistinctModules(dii) && Allocatable(limits, dii)
    ensures Repeats(limits, ms, dii)
  {
    forall m | m in dii.modules && m.id in ms ensures Current(ms, dii.downloadId, dii.blockSize, m) {
      var e :| e in dii.modules && e.id == m.id && Current(ms, dii.downloadId, dii.blockSize, e);
      var i :| 0 <= i < |dii.modules| && dii.modules[i] == m;
      var j :| 0 <= j < |dii.modules| && dii.modules[j] == e;
    }
  }

  /** What is in flight and what is missing are at most what is announced, and all of it while nothing has completed. */
  lemma {:induction false} HeldAndMissing(limits: Limits, bound: nat, ms: Modules, dii: Dii, k: nat)
    requires Repeats(limits, ms, dii) && k <= |dii.modules| && forall m | m in dii.modules :: m.id < bound
    ensures var held := Total(Only(ms, Ids(dii.modules[..k])), false, bound) + Demand(limits, ms, dii, k);
            && held <= SizeSum(dii.modules[..k])
            && ((forall id | id in ms :: !ms[id].completed) ==> held == SizeSum(dii.modules[..k]))
  {
    if k == 0 {
      assert dii.modules[..0] == [] && Only(ms, Ids([])) == map[];
      EmptyTotal(false, bound);
    } else {
      HeldAndMissing(limits, bound, ms, dii, k - 1);
      HeldNext(limits, bound, ms, dii, k - 1);
      SizeSumNext(dii.modules, k - 1);
    }
  }

  lemma HeldNext(limits: Limits, bound: nat, ms: Modules, dii: Dii, k: nat)
    requires Repeats(limits, ms, dii) && k < |dii.modules| && forall m | m in dii.modules :: m.id < bound
    ensures var info := dii.modules[k];
            var was := Total(Only(ms, Ids(dii.modules[..k])), false, bound);
            var now := Total(Only(ms, Ids(dii.modules[..k + 1])), false, bound);
            && now + Cost(limits, ms, dii, k) <= was + info.size
            && (info.id !in ms || !ms[info.id].completed ==> now + Cost(limits, ms, dii, k) == was + info.size)
  {
    var info := dii.modules[k];
    assert info in dii.modules;
    IdsNext(dii.modules, k);
    CostIs(limits, ms, dii, k);
    var was := Only(ms, Ids(dii.modules[..k]));
    forall m | m in dii.modules[..k] ensures m.id != info.id {
      var j :| 0 <= j < k && dii.modules[j] == m;
    }
    if info.id in ms {
      assert Only(ms, Ids(dii.modules[..k + 1])) == was[info.id := ms[info.id]];
      TotalUpdate(was, info.id, ms[info.id], false, bound);
    } else {
      assert Only(ms, Ids(dii.modules[..k + 1])) == was;
    }
  }

  /** If all that is announced fits into the budget, announcing it again always fits. */
  lemma AffordableFits(limits: Limits, bound: nat, ms: Modules, dii: Dii)
    requires Belongs(ms, dii) && DistinctModules(dii) && Allocatable(limits, dii)
             && (forall m | m in dii.modules :: m.id < bound)
    requires SizeSum(dii.modules) <= limits.maxInFlight
    ensures Fits(limits, bound, ms, dii)
  {
    BelongsRepeats(limits, ms, dii);
    HeldAndMissing(limits, bound, ms, dii, |dii.modules|);
    OnlyAll(ms, dii);
  }

  lemma OnlyAll(ms: Modules, dii: Dii)
    requires Belongs(ms, dii)
    ensures dii.modules[..|dii.modules|] == dii.modules && Only(ms, Ids(dii.modules)) == ms
  {
    forall id | id in ms ensures id in Ids(dii.modules) {
      var m :| m in dii.modules && m.id == id && Current(ms, dii.downloadId, dii.blockSize, m);
    }
  }
}
