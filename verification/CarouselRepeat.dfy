/** A carousel whose announcement is repeated: when that is harmless, and when it keeps starting downloads over. */
module CarouselRepeat {
  import opened Basics
  import opened CarouselModel
  import opened CarouselRoom
  import opened Carousel
  import opened CarouselAnnounce

  // ------------------------------------------------------------------- budgets

  /** Both byte budgets hold. */
  ghost predicate InBudget(limits: Limits, bound: nat, ms: Modules, done: bool) {
    Total(ms, done, bound) <= if done then limits.maxCompleted else limits.maxInFlight
  }

  lemma BudgetFewer(limits: Limits, bound: nat, ms: Modules, ms': Modules, done: bool)
    requires InBudget(limits, bound, ms, done) && forall id | id in ms' ::
               id in ms && Load(ms'[id], done) <= Load(ms[id], done)
    ensures InBudget(limits, bound, ms', done)
  {
    TotalLe(ms', ms, done, bound);
  }

  /** An allocation leaves no more in flight than the budget. */
  lemma BudgetAllocated(limits: Limits, bound: nat, ms: Modules, id: nat, m: Module)
    requires id < bound && id !in ms && !m.completed && m.info.size <= limits.maxInFlight
    ensures InBudget(limits, bound, Kept(ms, false, -1, limits.maxInFlight - m.info.size, bound)[id := m], false)
  {
    var kept := Kept(ms, false, -1, limits.maxInFlight - m.info.size, bound);
    KeptFits(ms, false, -1, limits.maxInFlight - m.info.size, bound);
    TotalIsYounger(kept, false, -1, bound);
    TotalUpdate(kept, id, m, false, bound);
  }

  lemma CompletedAllocated(limits: Limits, bound: nat, ms: Modules, id: nat, m: Module)
    requires id < bound && id !in ms && !m.completed && InBudget(limits, bound, ms, true)
    ensures InBudget(limits, bound, Kept(ms, false, -1, limits.maxInFlight - m.info.size, bound)[id := m], true)
  {
    var kept := Kept(ms, false, -1, limits.maxInFlight - m.info.size, bound);
    BudgetFewer(limits, bound, ms, kept, true);
    TotalUpdate(kept, id, m, true, bound);
  }

  lemma BudgetInfo(limits: Limits, bound: nat, p: Point, downloadId: nat, blockSize: nat, info: Info, done: bool)
    requires InBudget(limits, bound, p.modules, done) && info.id < bound
    ensures InBudget(limits, bound, AfterInfo(limits, bound, p, downloadId, blockSize, info).modules, done)
  {
    var gone := p.modules - {info.id};
    BudgetFewer(limits, bound, p.modules, gone, done);
    if Accepts(limits, p.modules, downloadId, blockSize, info) && !Current(p.modules, downloadId, blockSize, info) {
      var m := NewModule(info, downloadId, blockSize, p.generation + 1);
      BudgetAllocated(limits, bound, gone, info.id, m);
      if done { CompletedAllocated(limits, bound, gone, info.id, m); }
    }
  }

  lemma {:induction false} BudgetInfos(limits: Limits, bound: nat, p: Point, downloadId: nat, blockSize: nat,
                                       infos: seq<Info>, done: bool)
    requires InBudget(limits, bound, p.modules, done) && forall m | m in infos :: m.id < bound
    ensures InBudget(limits, bound, AfterInfos(limits, bound, p, downloadId, blockSize, infos).modules, done)
  {
    if infos != [] {
      var n := |infos| - 1;
      BudgetInfos(limits, bound, p, downloadId, blockSize, infos[..n], done);
      assert infos[n] in infos;
      BudgetInfo(limits, bound, AfterInfos(limits, bound, p, downloadId, blockSize, infos[..n]), downloadId, blockSize,
          infos[n], done);
    }
  }

  lemma BudgetDii(limits: Limits, bound: nat, p: Point, dii: Dii, done: bool)
    requires InBudget(limits, bound, p.modules, done) && forall m | m in dii.modules :: m.id < bound
    ensures InBudget(limits, bound, AfterDii(limits, bound, p, dii).modules, done)
  {
    var q := AfterInfos(limits, bound, p, dii.downloadId, dii.blockSize, dii.modules);
    BudgetInfos(limits, bound, p, dii.downloadId, dii.blockSize, dii.modules, done);
    BudgetFewer(limits, bound, q.modules, AfterDii(limits, bound, p, dii).modules, done);
  }

  // ------------------------------------------------------------ what is announced

  lemma BelongsFewer(ms: Modules, ms': Modules, dii: Dii)
    requires Belongs(ms, dii) && forall id | id in ms' :: id in ms && ms'[id] == ms[id]
    ensures Belongs(ms', dii)
  {
    forall id | id in ms'
      ensures exists m :: m in dii.modules && m.id == id && Current(ms', dii.downloadId, dii.blockSize, m)
    {
      var m :| m in dii.modules && m.id == id && Current(ms, dii.downloadId, dii.blockSize, m);
      assert Current(ms', dii.downloadId, dii.blockSize, m);
    }
  }

  /** Replacing a module by one of the same identity. */
  lemma BelongsPut(ms: Modules, id: nat, m: Module, info: Info, dii: Dii)
    requires Belongs(ms, dii) && info in dii.modules && info.id == id
    requires m.downloadId == dii.downloadId && m.info.version == info.version && m.info.size == info.size
             && m.blockSize == dii.blockSize
    ensures Belongs(ms[id := m], dii)
  {
    var ms' := ms[id := m];
    forall x | x in ms'
      ensures exists e :: e in dii.modules && e.id == x && Current(ms', dii.downloadId, dii.blockSize, e)
    {
      if x == id {
        assert Current(ms', dii.downloadId, dii.blockSize, info);
      } else {
        var e :| e in dii.modules && e.id == x && Current(ms, dii.downloadId, dii.blockSize, e);
        assert Current(ms', dii.downloadId, dii.blockSize, e);
      }
    }
  }

  lemma BelongsInfo(limits: Limits, bound: nat, p: Point, dii: Dii, info: Info)
    requires Belongs(p.modules, dii) && info in dii.modules
    ensures Belongs(AfterInfo(limits, bound, p, dii.downloadId, dii.blockSize, info).modules, dii)
  {
    var gone := p.modules - {info.id};
    BelongsFewer(p.modules, gone, dii);
    if Accepts(limits, p.modules, dii.downloadId, dii.blockSize, info) && !Current(p.modules, dii.downloadId,
        dii.blockSize, info) {
      var kept := Kept(gone, false, -1, limits.maxInFlight - info.size, bound);
      BelongsFewer(p.modules, kept, dii);
      BelongsPut(kept, info.id, NewModule(info, dii.downloadId, dii.blockSize, p.generation + 1), info, dii);
    }
  }

  lemma {:induction false} BelongsInfos(limits: Limits, bound: nat, p: Point, dii: Dii, n: nat)
    requires Belongs(p.modules, dii) && n <= |dii.modules|
    ensures Belongs(At(limits, bound, p, dii, n).modules, dii)
  {
    if n == 0 {
      assert dii.modules[..0] == [];
    } else {
      BelongsInfos(limits, bound, p, dii, n - 1);
      AtNext(limits, bound, p, dii, n - 1);
      assert dii.modules[n - 1] in dii.modules;
      BelongsInfo(limits, bound, At(limits, bound, p, dii, n - 1), dii, dii.modules[n - 1]);
    }
  }

  lemma BelongsDii(limits: Limits, bound: nat, p: Point, dii: Dii)
    requires Belongs(p.modules, dii)
    ensures Belongs(AfterDii(limits, bound, p, dii).modules, dii)
  {
    BelongsInfos(limits, bound, p, dii, |dii.modules|);
    assert dii.modules[..|dii.modules|] == dii.modules;
    BelongsFewer(At(limits, bound, p, dii, |dii.modules|).modules, AfterDii(limits, bound, p, dii).modules, dii);
  }

  // --------------------------------------------------------- announcing it twice

  const EMPTY := Point(map[], 0)

  lemma EmptyIsSane(limits: Limits, bound: nat)
    ensures Sane(EMPTY, bound) && InBudget(limits, bound, EMPTY.modules, false)
            && InBudget(limits, bound, EMPTY.modules, true)
  {
    EmptyTotal(false, bound);
    EmptyTotal(true, bound);
  }

  lemma {:induction false} NothingComplete(limits: Limits, bound: nat, dii: Dii, n: nat)
    requires n <= |dii.modules|
    ensures forall id | id in At(limits, bound, EMPTY, dii, n).modules ::
              !At(limits, bound, EMPTY, dii, n).modules[id].completed
  {
    if n == 0 {
      assert dii.modules[..0] == [];
    } else {
      NothingComplete(limits, bound, dii, n - 1);
      AtNext(limits, bound, EMPTY, dii, n - 1);
    }
  }

  /** The module announced last is held. */
  lemma LastIsHeld(limits: Limits, bound: nat, dii: Dii)
    requires dii.modules != [] && Allocatable(limits, dii)
    ensures dii.modules[|dii.modules| - 1].id in AfterDii(limits, bound, EMPTY, dii).modules
  {
    var n := |dii.modules| - 1;
    assert dii.modules[n] in dii.modules && dii.modules[..n + 1] == dii.modules;
    AtNext(limits, bound, EMPTY, dii, n);
  }

  lemma FirstIsSane(limits: Limits, bound: nat, dii: Dii)
    requires forall m | m in dii.modules :: m.id < bound
    ensures Sane(AfterDii(limits, bound, EMPTY, dii), bound)
            && InBudget(limits, bound, AfterDii(limits, bound, EMPTY, dii).modules, false)
  {
    EmptyIsSane(limits, bound);
    SaneDii(limits, bound, EMPTY, dii);
    BudgetDii(limits, bound, EMPTY, dii, false);
  }

  ghost predicate AllLoading(ms: Modules) { forall id | id in ms :: !ms[id].completed }

  lemma FirstBelongs(limits: Limits, bound: nat, dii: Dii)
    ensures Belongs(AfterDii(limits, bound, EMPTY, dii).modules, dii)
            && AllLoading(AfterDii(limits, bound, EMPTY, dii).modules)
  {
    BelongsDii(limits, bound, EMPTY, dii);
    NothingComplete(limits, bound, dii, |dii.modules|);
    assert dii.modules[..|dii.modules|] == dii.modules;
    var q := At(limits, bound, EMPTY, dii, |dii.modules|);
    assert AfterDii(limits, bound, EMPTY, dii).modules == Only(q.modules, Ids(dii.modules));
  }

  /** While nothing has completed, what is in flight and what is missing are all that is announced. */
  lemma AllAnnounced(limits: Limits, bound: nat, p: Point, dii: Dii)
    requires DistinctModules(dii) && Allocatable(limits, dii) && (forall m | m in dii.modules :: m.id < bound)
    requires Belongs(p.modules, dii) && AllLoading(p.modules)
    ensures Repeats(limits, p.modules, dii) && forall id | id in p.modules :: Loading(p, dii, id)
    ensures Total(p.modules, false, bound) + Demand(limits, p.modules, dii, |dii.modules|) == SizeSum(dii.modules)
  {
    BelongsRepeats(limits, p.modules, dii);
    OnlyAll(p.modules, dii);
    HeldAndMissing(limits, bound, p.modules, dii, |dii.modules|);
    forall id | id in p.modules ensures Loading(p, dii, id) { assert id in Only(p.modules, Ids(dii.modules)); }
  }

  /** While nothing has completed, each module fits with what is not older and what is missing exactly when all that is
      announced does. */
  lemma AllFitTogether(limits: Limits, bound: nat, p: Point, dii: Dii)
    requires p.modules != map[] && (forall id | id in p.modules :: Loading(p, dii, id))
             && InBudget(limits, bound, p.modules, false)
    requires Total(p.modules, false, bound) + Demand(limits, p.modules, dii, |dii.modules|) == SizeSum(dii.modules)
    ensures AllFit(limits, bound, p, dii) <==> SizeSum(dii.modules) <= limits.maxInFlight
  {
    TotalIsYounger(p.modules, false, -1, bound);
    if SizeSum(dii.modules) <= limits.maxInFlight {
      forall id | Loading(p, dii, id) ensures Room(limits, bound, p, dii, |dii.modules|, p.modules[id].generation) {
        YoungerFalls(p.modules, false, -1, 0, p.modules[id].generation, bound);
      }
    } else {
      var some :| some in p.modules;
      var o := SomeOldest(p.modules, p.modules.Keys);
      YoungerLe(p.modules, p.modules, false, -1, 0, p.modules[o].generation, bound);
      assert Loading(p, dii, o) && !Room(limits, bound, p, dii, |dii.modules|, p.modules[o].generation);
    }
  }

  /** Announced again at once, an announcement leaves every download as it was exactly when all its modules fit into the
      in-flight budget together; otherwise it starts downloads over. */
  lemma RepetitionLosesNothingExactly(limits: Limits, bound: nat, dii: Dii)
    requires DistinctModules(dii) && Allocatable(limits, dii) && forall m | m in dii.modules :: m.id < bound
    ensures LosesNothing(limits, bound, AfterDii(limits, bound, EMPTY, dii), dii)
            <==> SizeSum(dii.modules) <= limits.maxInFlight
  {
    var p := AfterDii(limits, bound, EMPTY, dii);
    FirstIsSane(limits, bound, dii);
    FirstBelongs(limits, bound, dii);
    AllAnnounced(limits, bound, p, dii);
    LosesNothingExactly(limits, bound, p, dii);
    if dii.modules != [] {
      LastIsHeld(limits, bound, dii);
      AllFitTogether(limits, bound, p, dii);
    }
  }

  // -------------------------------------------------------------------- an example

  const TIGHT := Limits(10, 100, 16)

  const PAIR := Dii(7, 5, [Info(0, 1, 10), Info(1, 1, 10)])

  /** Beside one incomplete module of ten bytes there is no room for ten more. */
  lemma NoRoomForTwo(bound: nat, x: nat, m: Module)
    requires x < bound && !m.completed && m.info.size == 10
    ensures Kept(map[x := m], false, -1, 6, bound) == map[]
  {
    NoneYounger(false, -1, m.generation, bound);
    YoungerPut(map[], x, m, false, -1, m.generation, bound);
    assert map[][x := m] == map[x := m];
  }

  /** Announcing both of the pair while only the second is held leaves the second alone, as a new download. */
  lemma PairAnnounced(bound: nat, p: Point)
    requires bound >= 2 && (p.modules == map[]
             || (p.modules.Keys == {1} && !p.modules[1].completed && p.modules[1].info.size == 10))
    ensures AfterDii(TIGHT, bound, p, PAIR)
            == Point(map[1 := NewModule(Info(1, 1, 10), 7, 5, p.generation + 2)], p.generation + 2)
  {
    var first, second := Info(0, 1, 10), Info(1, 1, 10);
    var p1 := Point(map[0 := NewModule(first, 7, 5, p.generation + 1)], p.generation + 1);
    assert AfterInfo(TIGHT, bound, p, 7, 5, first) == p1 by { FirstOfPair(bound, p); }
    var p2 := Point(map[1 := NewModule(second, 7, 5, p.generation + 2)], p.generation + 2);
    assert AfterInfo(TIGHT, bound, p1, 7, 5, second) == p2 by {
      assert p1.modules - {1} == p1.modules;
      NoRoomForTwo(bound, 0, p1.modules[0]);
    }
    AtNext(TIGHT, bound, p, PAIR, 0);
    AtNext(TIGHT, bound, p, PAIR, 1);
    assert PAIR.modules[..0] == [] && PAIR.modules[..2] == PAIR.modules;
    assert Only(p2.modules, Ids(PAIR.modules)) == p2.modules by { assert second in PAIR.modules; }
  }

  lemma FirstOfPair(bound: nat, p: Point)
    requires bound >= 2 && (p.modules == map[]
             || (p.modules.Keys == {1} && !p.modules[1].completed && p.modules[1].info.size == 10))
    ensures AfterInfo(TIGHT, bound, p, 7, 5, Info(0, 1, 10))
            == Point(map[0 := NewModule(Info(0, 1, 10), 7, 5, p.generation + 1)], p.generation + 1)
  {
    assert p.modules - {0} == p.modules;
    if p.modules == map[] {
      assert Kept(p.modules, false, -1, 6, bound) == map[];
    } else {
      assert p.modules == map[1 := p.modules[1]];
      NoRoomForTwo(bound, 1, p.modules[1]);
    }
  }

  /** Two modules that do not fit together: the second is held, takes its first block, and the same announcement starts
      it
      over, without the block. */
  lemma RepetitionLosesBlock(bound: nat, data: seq<Byte>)
    requires bound >= 2
    ensures var p := AfterDii(TIGHT, bound, EMPTY, PAIR);
            var block := Ddb(7, 1, 1, 0, data);
            var q := Point(AfterDdb(TIGHT, bound, p.modules, block), p.generation);
            && AnswerTo(TIGHT, p.modules, block) == Answer(NewBlock, None) && 1 in q.modules
                 && q.modules[1].received == [true, false]
            && AfterDii(TIGHT, bound, q, PAIR).modules == map[1 := NewModule(Info(1, 1, 10), 7, 5, 4)]
            && NewModule(Info(1, 1, 10), 7, 5, 4).received == [false, false]
  {
    var p := AfterDii(TIGHT, bound, EMPTY, PAIR);
    PairAnnounced(bound, EMPTY);
    var q := Point(AfterDdb(TIGHT, bound, p.modules, Ddb(7, 1, 1, 0, data)), p.generation);
    assert AllFalse(2) == [false, false];
    PairAnnounced(bound, q);
  }
}
