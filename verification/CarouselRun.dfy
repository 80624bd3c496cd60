/** Every run of a carousel: its budgets, and a module's download from its announcement to its last block. */
module CarouselRun {
  import opened Basics
  import opened CarouselModel
  import opened CarouselRoom
  import opened Carousel
  import opened CarouselAnnounce
  import opened CarouselRepeat

  datatype Event =
    | Piece(ddb: Ddb)
    | Announce(dii: Dii)
    | Restore(id: nat, downloadId: nat, version: nat, size: nat, data: seq<Byte>)
    | Release(id: nat)
    | Invalidate(id: nat, downloadId: nat, version: nat)

  ghost predicate InRange(bound: nat, e: Event) { e.Announce? ==> forall m | m in e.dii.modules :: m.id < bound }

  ghost function After(limits: Limits, bound: nat, p: Point, e: Event): Point {
    match e
    case Piece(ddb) => Point(AfterDdb(limits, bound, p.modules, ddb), p.generation)
    case Announce(dii) => AfterDii(limits, bound, p, dii)
    case Restore(id, downloadId, version, size, data) =>
      Point(AfterRestore(limits, bound, p.modules, id, downloadId, version, size, data), p.generation)
    case Release(id) => Point(AfterRelease(p.modules, id), p.generation)
    case Invalidate(id, downloadId, version) => AfterInvalidate(p, id, downloadId, version)
  }

  ghost function AfterAll(limits: Limits, bound: nat, p: Point, events: seq<Event>): Point {
    if events == [] then p else After(limits, bound, AfterAll(limits, bound, p, events[..|events| - 1]),
        events[|events| - 1])
  }

  lemma AfterNext(limits: Limits, bound: nat, p: Point, events: seq<Event>, n: nat)
    requires n < |events|
    ensures AfterAll(limits, bound, p, events[..n + 1])
            == After(limits, bound, AfterAll(limits, bound, p, events[..n]), events[n])
  {
    var next := events[..n + 1];
    assert next[..n] == events[..n] && next[n] == events[n];
  }

  // ------------------------------------------------------------------ sound modules

  lemma SanePut(p: Point, id: nat, m: Module, bound: nat)
    requires Sane(p, bound) && id in p.modules && ModuleOk(m) && m.info.id == id
             && m.generation == p.modules[id].generation
    ensures Sane(Point(p.modules[id := m], p.generation), bound)
  {
    assert EntryOk(p.modules, p.generation, bound, id);
    forall k | k in p.modules && k != id ensures p.modules[k].generation != m.generation {
      assert Apart(p.modules, id, k);
    }
    PutKeeps(p.modules, p.modules[id := m], p.generation, bound, id, m);
  }

  lemma SanePiece(limits: Limits, bound: nat, p: Point, ddb: Ddb)
    requires Sane(p, bound)
    ensures Sane(Point(AfterDdb(limits, bound, p.modules, ddb), p.generation), bound)
  {
    var id := ddb.moduleId;
    if Taken(p.modules, ddb) {
      assert EntryOk(p.modules, p.generation, bound, id);
      AbsorbOk(p.modules[id], ddb.block, ddb.data);
      var q := Point(p.modules[id := Absorb(p.modules[id], ddb.block, ddb.data)], p.generation);
      SanePut(p, id, q.modules[id], bound);
      SaneFewer(q, AfterDdb(limits, bound, p.modules, ddb), bound);
    }
  }

  function Restored(m: Module, data: seq<Byte>): Module
    requires m.blockSize > 0
  {
    m.(data := data, received := [], completed := true, count := BlockCount(m.info.size, m.blockSize))
  }

  lemma SaneStep(limits: Limits, bound: nat, p: Point, e: Event)
    requires Sane(p, bound) && InRange(bound, e)
    ensures Sane(After(limits, bound, p, e), bound)
  {
    match e
    case Piece(ddb) => SanePiece(limits, bound, p, ddb);
    case Announce(dii) => SaneDii(limits, bound, p, dii);
    case Restore(id, downloadId, version, size, data) =>
      if Restorable(p.modules, id, downloadId, version, size, data) {
        assert EntryOk(p.modules, p.generation, bound, id);
        var m := Restored(p.modules[id], data);
        SanePut(p, id, m, bound);
        SaneFewer(Point(p.modules[id := m], p.generation), After(limits, bound, p, e).modules, bound);
      }
    case Release(id) =>
      assert EntryOk(p.modules, p.generation, bound, id);
      if Releasable(p.modules, id) { SanePut(p, id, p.modules[id].(data := []), bound); }
    case Invalidate(id, downloadId, version) =>
      assert EntryOk(p.modules, p.generation, bound, id);
      if Resettable(p.modules, id, downloadId, version) {
        SaneNew(p, p.modules[id].info, downloadId, p.modules[id].blockSize, bound);
      }
  }

  // ------------------------------------------------------------------------ budgets

  /** A completion leaves no more completed bytes than the budget. */
  lemma BudgetCompletion(limits: Limits, bound: nat, ms: Modules, id: nat)
    requires id in ms && id < bound && ms[id].completed
    ensures InBudget(limits, bound, AfterCompletion(limits, bound, ms, id), true)
  {
    var room := limits.maxCompleted - |ms[id].data|;
    var kept := Kept(ms, true, id, room, bound);
    if room >= 0 {
      KeptFits(ms, true, id, room, bound);
      TotalIsYounger(kept, true, id, bound);
    } else {
      var rest: Modules := kept - {id};
      forall i | 0 <= i < bound && i in rest ensures Load(rest[i], true) == 0 { assert !Candidate(ms, true, id, i); }
      TotalOnly(rest, id, true, bound);
    }
  }

  /** Whatever happens, completed bytes stay in budget, and unless a module is invalidated so do bytes in flight. */
  lemma BudgetStep(limits: Limits, bound: nat, p: Point, e: Event, done: bool)
    requires Sane(p, bound) && InRange(bound, e) && InBudget(limits, bound, p.modules, done) && (done || !e.Invalidate?)
    ensures InBudget(limits, bound, After(limits, bound, p, e).modules, done)
  {
    var ms' := After(limits, bound, p, e).modules;
    match e
    case Announce(dii) => BudgetDii(limits, bound, p, dii, done);
    case Piece(ddb) => BudgetPiece(limits, bound, p, ddb, done);
    case Restore(id, downloadId, version, size, data) =>
      assert EntryOk(p.modules, p.generation, bound, id);
      if !Restorable(p.modules, id, downloadId, version, size, data) {
      } else if done {
        BudgetCompletion(limits, bound, p.modules[id := Restored(p.modules[id], data)], id);
      } else {
        BudgetFewer(limits, bound, p.modules, ms', done);
      }
    case Release(_) => BudgetFewer(limits, bound, p.modules, ms', done);
    case Invalidate(_, _, _) => BudgetFewer(limits, bound, p.modules, ms', done);
  }

  lemma BudgetPiece(limits: Limits, bound: nat, p: Point, ddb: Ddb, done: bool)
    requires Sane(p, bound) && InBudget(limits, bound, p.modules, done)
    ensures InBudget(limits, bound, AfterDdb(limits, bound, p.modules, ddb), done)
  {
    var id := ddb.moduleId;
    if Taken(p.modules, ddb) {
      assert EntryOk(p.modules, p.generation, bound, id);
      var a := Absorb(p.modules[id], ddb.block, ddb.data);
      if done && a.completed {
        BudgetCompletion(limits, bound, p.modules[id := a], id);
      } else {
        BudgetFewer(limits, bound, p.modules, AfterDdb(limits, bound, p.modules, ddb), done);
      }
    }
  }

  /** In every run completed bytes stay in budget, and in every run without invalidations so do bytes in flight. */
  lemma {:induction false} RunStaysInBudget(limits: Limits, bound: nat, p: Point, events: seq<Event>, done: bool)
    requires Sane(p, bound) && InBudget(limits, bound, p.modules, done)
    requires forall n | 0 <= n < |events| :: InRange(bound, events[n]) && (done || !events[n].Invalidate?)
    ensures Sane(AfterAll(limits, bound, p, events), bound)
            && InBudget(limits, bound, AfterAll(limits, bound, p, events).modules, done)
  {
    if events != [] {
      var n := |events| - 1;
      RunStaysInBudget(limits, bound, p, events[..n], done);
      SaneStep(limits, bound, AfterAll(limits, bound, p, events[..n]), events[n]);
      BudgetStep(limits, bound, AfterAll(limits, bound, p, events[..n]), events[n], done);
    }
  }

  // -------------------------------------------------------------- a download under way

  /** A block of this download. */
  predicate Own(m: Module, e: Event) {
    e.Piece? && e.ddb.moduleId == m.info.id && e.ddb.downloadId == m.downloadId && e.ddb.version == m.info.version
  }

  function Brought(m: Module, e: Event): seq<nat> { if Own(m, e) then [e.ddb.block] else [] }

  function OwnBlocks(m: Module, events: seq<Event>): seq<nat> {
    if events == [] then [] else OwnBlocks(m, events[..|events| - 1]) + Brought(m, events[|events| - 1])
  }

  lemma OwnBlocksNext(m: Module, events: seq<Event>, n: nat)
    requires n < |events|
    ensures OwnBlocks(m, events[..n + 1]) == OwnBlocks(m, events[..n]) + Brought(m, events[n])
  {
    assert events[..n + 1][..n] == events[..n] && events[..n + 1][n] == events[n];
  }

  /** The announcement names this module, and only as it is. */
  ghost predicate Names(limits: Limits, m: Module, dii: Dii) {
    && m.info.id in Ids(dii.modules) && dii.downloadId == m.downloadId && dii.blockSize == m.blockSize
    && forall x | x in dii.modules && x.id == m.info.id ::
         x.version == m.info.version && x.size == m.info.size && !Refused(limits, dii.blockSize, x)
  }

  /** The module is completed from a cache. */
  predicate Cached(m: Module, e: Event) {
    && e.Restore? && e.id == m.info.id && e.downloadId == m.downloadId && e.version == m.info.version
    && e.size == m.info.size == |e.data|
  }

  /** Blocks of the download carry the payload, announcements name it and fit, and it does not come from a cache. */
  ghost predicate Fair(limits: Limits, bound: nat, m: Module, payload: seq<Byte>, p: Point, e: Event) {
    && (Own(m, e) ==> e.ddb.data == Block(payload, m.blockSize, e.ddb.block))
    && (e.Announce? ==> Names(limits, m, e.dii) && Fits(limits, bound, p.modules, e.dii))
    && !Cached(m, e) && InRange(bound, e)
  }

  /** The download is under way, with these blocks. */
  ghost predicate UnderWay(m: Module, payload: seq<Byte>, blocks: seq<nat>, p: Point) {
    ModuleOk(m) && m.info.id in p.modules && p.modules[m.info.id] == Fed(m, payload, blocks)
        && !Fed(m, payload, blocks).completed
  }

  /** A block of another module, whatever its completion evicts, leaves an incomplete module alone. */
  lemma OtherBlocksSpare(limits: Limits, bound: nat, ms: Modules, ddb: Ddb, id: nat)
    requires id in ms && !ms[id].completed && (ddb.moduleId != id || !Matches(ms, ddb))
    ensures id in AfterDdb(limits, bound, ms, ddb) && AfterDdb(limits, bound, ms, ddb)[id] == ms[id]
  {}

  lemma AnnouncementSpares(limits: Limits, bound: nat, m: Module, payload: seq<Byte>, blocks: seq<nat>, p: Point,
                           dii: Dii)
    requires UnderWay(m, payload, blocks, p) && Fair(limits, bound, m, payload, p, Announce(dii))
    ensures UnderWay(m, payload, blocks, AfterDii(limits, bound, p, dii))
  {
    forall j | 0 <= j < |dii.modules| && dii.modules[j].id == m.info.id
      ensures Keeps(limits, p.modules, dii, dii.modules[j])
    {
      assert dii.modules[j] in dii.modules;
    }
    FitsSpares(limits, bound, p, dii, m.info.id);
  }

  /** Nothing but its own blocks touches it. */
  lemma OtherEventsSpare(limits: Limits, bound: nat, m: Module, payload: seq<Byte>, blocks: seq<nat>, p: Point,
                         e: Event)
    requires UnderWay(m, payload, blocks, p) && Fair(limits, bound, m, payload, p, e) && !Own(m, e)
    ensures UnderWay(m, payload, blocks, After(limits, bound, p, e))
  {
    match e
    case Piece(ddb) => OtherBlocksSpare(limits, bound, p.modules, ddb, m.info.id);
    case Announce(dii) => AnnouncementSpares(limits, bound, m, payload, blocks, p, dii);
    case Restore(_, _, _, _, _) =>
    case Release(_) =>
    case Invalidate(_, _, _) =>
  }

  /** A new module, announced and allocated. */
  ghost predicate Fresh(m: Module) {
    ModuleOk(m) && !m.completed && m.received == AllFalse(BlockCount(m.info.size, m.blockSize))
        && m.info.size + m.blockSize - 1 < WORD
  }

  ghost predicate AllCome(m: Module, blocks: seq<nat>) {
    m.blockSize > 0 && forall k | 0 <= k < BlockCount(m.info.size, m.blockSize) :: k in blocks
  }

  /** A block of its own takes it one step further, or ends it. */
  lemma OwnBlockFeeds(limits: Limits, bound: nat, m: Module, payload: seq<Byte>, blocks: seq<nat>, p: Point, e: Event)
    requires UnderWay(m, payload, blocks, p) && Fair(limits, bound, m, payload, p, e) && Own(m, e)
    ensures var fed := Fed(m, payload, blocks + [e.ddb.block]);
            && (!fed.completed ==> UnderWay(m, payload, blocks + [e.ddb.block], After(limits, bound, p, e)))
            && var answer := AnswerTo(limits, p.modules, e.ddb);
               if !fed.completed then answer.result != Completed && answer.result != OverBudget && answer.out == None
               else if |fed.data| > limits.maxCompleted then answer == Answer(OverBudget, None)
               else answer == Answer(Completed, Some(fed))
  {
    assert (blocks + [e.ddb.block])[..|blocks|] == blocks;
  }

  /** How the event that a download waits for is answered, and any earlier block of its own. */
  ghost predicate AnsweredRight(limits: Limits, m: Module, payload: seq<Byte>, answer: Answer, last: bool) {
    if !last then answer.result != Completed && answer.result != OverBudget && answer.out == None
    else if m.info.size > limits.maxCompleted then answer == Answer(OverBudget, None)
    else
      && answer.result == Completed && answer.out.Some?
      && answer.out.value.data == payload && answer.out.value.info == m.info
  }

  lemma EventFeeds(limits: Limits, bound: nat, m: Module, payload: seq<Byte>, blocks: seq<nat>, p: Point, e: Event)
    requires UnderWay(m, payload, blocks, p) && Fair(limits, bound, m, payload, p, e) && Fresh(m)
             && |payload| == m.info.size
    ensures !AllCome(m, blocks + Brought(m, e)) ==>
              UnderWay(m, payload, blocks + Brought(m, e), After(limits, bound, p, e))
    ensures AllCome(m, blocks + Brought(m, e)) ==> Own(m, e)
    ensures Own(m, e) ==> AnsweredRight(limits, m, payload, AnswerTo(limits, p.modules, e.ddb),
            AllCome(m, blocks + Brought(m, e)))
  {
    DownloadCompletes(m, payload, blocks + Brought(m, e));
    if Own(m, e) {
      OwnBlockFeeds(limits, bound, m, payload, blocks, p, e);
    } else {
      assert blocks + Brought(m, e) == blocks;
      OtherEventsSpare(limits, bound, m, payload, blocks, p, e);
    }
  }

  /** From a point where a new module is held, all events are fair to its download. */
  ghost predicate Download(limits: Limits, bound: nat, p: Point, m: Module, payload: seq<Byte>, events: seq<Event>) {
    && Fresh(m) && |payload| == m.info.size && m.info.id in p.modules && p.modules[m.info.id] == m
    && forall n | 0 <= n < |events| ::
           Fair(limits, bound, m, payload, AfterAll(limits, bound, p, events[..n]), events[n])
  }

  /** In every such run, until its last block has come, the module holds exactly the blocks that have. */
  lemma {:induction false} DownloadUnderWay(limits: Limits, bound: nat, p: Point, m: Module, payload: seq<Byte>,
                                            events: seq<Event>, n: nat)
    requires Download(limits, bound, p, m, payload, events) && n <= |events| && !AllCome(m, OwnBlocks(m, events[..n]))
    ensures UnderWay(m, payload, OwnBlocks(m, events[..n]), AfterAll(limits, bound, p, events[..n]))
  {
    if n == 0 {
      assert events[..0] == [];
      DownloadCompletes(m, payload, []);
    } else {
      OwnBlocksNext(m, events, n - 1);
      AfterNext(limits, bound, p, events, n - 1);
      DownloadUnderWay(limits, bound, p, m, payload, events, n - 1);
      EventFeeds(limits, bound, m, payload, OwnBlocks(m, events[..n - 1]), AfterAll(limits, bound, p, events[..n - 1]),
          events[n - 1]);
    }
  }

  /** And the event that brings the last missing block, that one and none before it, is answered with the payload. */
  lemma DownloadEndsExactlyOnce(limits: Limits, bound: nat, p: Point, m: Module, payload: seq<Byte>, events: seq<Event>,
                                n: nat)
    requires Download(limits, bound, p, m, payload, events) && n < |events| && !AllCome(m, OwnBlocks(m, events[..n]))
    ensures AllCome(m, OwnBlocks(m, events[..n + 1])) ==> Own(m, events[n])
    ensures Own(m, events[n]) ==>
              AnsweredRight(limits, m, payload,
                  AnswerTo(limits, AfterAll(limits, bound, p, events[..n]).modules, events[n].ddb),
                            AllCome(m, OwnBlocks(m, events[..n + 1])))
  {
    OwnBlocksNext(m, events, n);
    DownloadUnderWay(limits, bound, p, m, payload, events, n);
    EventFeeds(limits, bound, m, payload, OwnBlocks(m, events[..n]), AfterAll(limits, bound, p, events[..n]),
        events[n]);
  }

  // --------------------------------------------------- one announcement, all of which fits

  /** An announcement of distinct modules that could all be in flight together. */
  ghost predicate Affordable(limits: Limits, bound: nat, dii: Dii) {
    && DistinctModules(dii) && Allocatable(limits, dii) && (forall m | m in dii.modules :: m.id < bound)
    && SizeSum(dii.modules) <= limits.maxInFlight
  }

  lemma BelongsStep(limits: Limits, bound: nat, p: Point, e: Event, dii: Dii)
    requires Belongs(p.modules, dii) && (e.Announce? ==> e.dii == dii)
    ensures Belongs(After(limits, bound, p, e).modules, dii)
  {
    match e
    case Announce(_) => BelongsDii(limits, bound, p, dii);
    case Piece(ddb) =>
      if Taken(p.modules, ddb) {
        BelongsSame(p.modules, ddb.moduleId, Absorb(p.modules[ddb.moduleId], ddb.block, ddb.data), dii);
        BelongsFewer(p.modules[ddb.moduleId := Absorb(p.modules[ddb.moduleId], ddb.block, ddb.data)],
                     AfterDdb(limits, bound, p.modules, ddb), dii);
      }
    case Restore(id, downloadId, version, size, data) =>
      if Restorable(p.modules, id, downloadId, version, size, data) {
        BelongsSame(p.modules, id, Restored(p.modules[id], data), dii);
        BelongsFewer(p.modules[id := Restored(p.modules[id], data)], After(limits, bound, p, e).modules, dii);
      }
    case Release(id) =>
      if Releasable(p.modules, id) { BelongsSame(p.modules, id, p.modules[id].(data := []), dii); }
    case Invalidate(id, downloadId, version) =>
      if Resettable(p.modules, id, downloadId, version) {
        BelongsSame(p.modules, id, NewModule(p.modules[id].info, downloadId, p.modules[id].blockSize,
            p.generation + 1), dii);
      }
  }

  lemma BelongsSame(ms: Modules, id: nat, m: Module, dii: Dii)
    requires Belongs(ms, dii) && id in ms && m.info == ms[id].info && m.downloadId == ms[id].downloadId
             && m.blockSize == ms[id].blockSize
    ensures Belongs(ms[id := m], dii)
  {
    var info :| info in dii.modules && info.id == id && Current(ms, dii.downloadId, dii.blockSize, info);
    BelongsPut(ms, id, m, info, dii);
  }

  lemma {:induction false} BelongsRun(limits: Limits, bound: nat, dii: Dii, events: seq<Event>)
    requires forall n | 0 <= n < |events| :: events[n].Announce? ==> events[n].dii == dii
    ensures Belongs(AfterAll(limits, bound, EMPTY, events).modules, dii)
  {
    if events != [] {
      var n := |events| - 1;
      BelongsRun(limits, bound, dii, events[..n]);
      BelongsStep(limits, bound, AfterAll(limits, bound, EMPTY, events[..n]), events[n], dii);
    }
  }

  lemma BelongsNames(limits: Limits, bound: nat, ms: Modules, dii: Dii, m: Module)
    requires Affordable(limits, bound, dii) && Belongs(ms, dii) && m.info.id in ms && ms[m.info.id] == m
    ensures Names(limits, m, dii)
  {
    BelongsRepeats(limits, ms, dii);
    var info :| info in dii.modules && info.id == m.info.id && Current(ms, dii.downloadId, dii.blockSize, info);
  }

  lemma {:induction false} AfterConcat(limits: Limits, bound: nat, p: Point, a: seq<Event>, b: seq<Event>)
    ensures AfterAll(limits, bound, p, a + b) == AfterAll(limits, bound, AfterAll(limits, bound, p, a), b)
  {
    if b == [] {
      assert a + b == a;
    } else {
      var n := |b| - 1;
      assert (a + b)[..|a| + n] == a + b[..n] && (a + b)[|a| + n] == b[n];
      AfterConcat(limits, bound, p, a, b[..n]);
    }
  }

  /** When all announced modules fit into the in-flight budget together, repeating that announcement, and no other, is
      fair
      to every download from an empty carousel on, whatever else happens short of its completion from a cache. */
  lemma AffordableIsFair(limits: Limits, bound: nat, dii: Dii, m: Module, payload: seq<Byte>, before: seq<Event>,
                         events: seq<Event>)
    requires Affordable(limits, bound, dii)
    requires forall n | 0 <= n < |before| :: before[n].Announce? ==> before[n].dii == dii
    requires forall n | 0 <= n < |events| ::
               && (events[n].Announce? ==> events[n].dii == dii) && !Cached(m, events[n])
               && (Own(m, events[n]) ==> events[n].ddb.data == Block(payload, m.blockSize, events[n].ddb.block))
    requires var p := AfterAll(limits, bound, EMPTY, before);
             m.info.id in p.modules && p.modules[m.info.id] == m && Fresh(m) && |payload| == m.info.size
    ensures Download(limits, bound, AfterAll(limits, bound, EMPTY, before), m, payload, events)
  {
    var p := AfterAll(limits, bound, EMPTY, before);
    BelongsRun(limits, bound, dii, before);
    BelongsNames(limits, bound, p.modules, dii, m);
    forall n | 0 <= n < |events|
      ensures Fair(limits, bound, m, payload, AfterAll(limits, bound, p, events[..n]), events[n])
    {
      AfterConcat(limits, bound, EMPTY, before, events[..n]);
      BelongsRun(limits, bound, dii, before + events[..n]);
      AffordableFits(limits, bound, AfterAll(limits, bound, p, events[..n]).modules, dii);
    }
  }
}
