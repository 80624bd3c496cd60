/**
 The carousel receiver of ts/dsmcc_carousel.go: announcements allocate modules, blocks fill
 them, and two byte budgets are kept by evicting the oldest modules.
 */
module Carousel {
  import opened Basics
  import opened CarouselModel
  import opened CarouselRoom

  datatype Limits = Limits(maxModule: nat, maxCompleted: nat, maxInFlight: nat)

  datatype Reason = ModuleSizeZero | BlockSizeZero | ModuleSizeLimitExceeded | InFlightBudgetExceeded

  datatype Dii = Dii(downloadId: nat, blockSize: nat, modules: seq<Info>)

  datatype Ddb = Ddb(downloadId: nat, moduleId: nat, version: nat, block: nat, data: seq<Byte>)

  datatype DdbResult = Ignored | Duplicate | NewBlock | Completed | OverBudget

  ghost predicate EntryOk(ms: Modules, generation: nat, bound: nat, id: nat) {
    id in ms ==> ModuleOk(ms[id]) && ms[id].info.id == id && ms[id].generation <= generation && id < bound
  }

  predicate Refused(limits: Limits, blockSize: nat, info: Info) {
    info.size == 0 || blockSize == 0 || info.size > limits.maxModule
  }

  /** The announced module is the one being received. */
  predicate Current(ms: Modules, downloadId: nat, blockSize: nat, info: Info) {
    info.id in ms && var m := ms[info.id];
    m.downloadId == downloadId && m.info.version == info.version && m.info.size == info.size && m.blockSize == blockSize
  }

  predicate Matches(ms: Modules, ddb: Ddb) {
    ddb.moduleId in ms && var m := ms[ddb.moduleId]; m.downloadId == ddb.downloadId && m.info.version == ddb.version
  }

  /** Why an announced module is rejected. */
  function Why(blockSize: nat, limits: Limits, info: Info): Reason {
    if info.size == 0 then ModuleSizeZero
    else if blockSize == 0 then BlockSizeZero
    else if info.size > limits.maxModule then ModuleSizeLimitExceeded
    else InFlightBudgetExceeded
  }

  function LoadOf(ms: Modules, id: nat, done: bool): nat { if id in ms then Load(ms[id], done) else 0 }

  // -------------------------------------------------------------- what events do

  /** The modules held, and the number of the newest allocation. */
  datatype Point = Point(modules: Modules, generation: nat)

  /** The counters can be right about such modules: each under its own id, and no two of one generation. */
  ghost predicate Sane(p: Point, bound: nat) {
    (forall id :: EntryOk(p.modules, p.generation, bound, id)) && forall a, b :: Apart(p.modules, a, b)
  }

  predicate Accepts(limits: Limits, ms: Modules, downloadId: nat, blockSize: nat, info: Info) {
    !Refused(limits, blockSize, info) && (Current(ms, downloadId, blockSize, info) || info.size <= limits.maxInFlight)
  }

  /** One announced module: refused or too large, already current, or allocated anew when there is room. */
  ghost function AfterInfo(limits: Limits, bound: nat, p: Point, downloadId: nat, blockSize: nat, info: Info): Point {
    var gone := p.modules - {info.id};
    if !Accepts(limits, p.modules, downloadId, blockSize, info) then Point(gone, p.generation)
    else if Current(p.modules, downloadId, blockSize, info) then p
    else
      var kept := Kept(gone, false, -1, limits.maxInFlight - info.size, bound);
      Point(kept[info.id := NewModule(info, downloadId, blockSize, p.generation + 1)], p.generation + 1)
  }

  /** The announced modules one after the other. */
  ghost function AfterInfos(limits: Limits, bound: nat, p: Point, downloadId: nat, blockSize: nat,
                            infos: seq<Info>): Point
  {
    if infos == [] then p
    else
      var n := |infos| - 1;
      AfterInfo(limits, bound, AfterInfos(limits, bound, p, downloadId, blockSize, infos[..n]), downloadId, blockSize,
          infos[n])
  }

  /** Those of them that are accepted, in order. */
  ghost function Accepted(limits: Limits, bound: nat, p: Point, downloadId: nat, blockSize: nat,
                          infos: seq<Info>): seq<Info>
  {
    if infos == [] then []
    else
      var n := |infos| - 1;
      var ms := AfterInfos(limits, bound, p, downloadId, blockSize, infos[..n]).modules;
      Accepted(limits, bound, p, downloadId, blockSize, infos[..n])
      + if Accepts(limits, ms, downloadId, blockSize, infos[n]) then [infos[n]] else []
  }

  ghost function Only(ms: Modules, ids: set<nat>): Modules { map id | id in ms && id in ids :: ms[id] }

  /** An announcement: its modules in turn, after which only announced modules are left. */
  ghost function AfterDii(limits: Limits, bound: nat, p: Point, dii: Dii): Point {
    var q := AfterInfos(limits, bound, p, dii.downloadId, dii.blockSize, dii.modules);
    Point(Only(q.modules, Ids(dii.modules)), q.generation)
  }

  /** Completed modules make room for the one completed last, which goes as well if it is too large. */
  ghost function AfterCompletion(limits: Limits, bound: nat, ms: Modules, id: nat): Modules
    requires id in ms
  {
    var kept := Kept(ms, true, id, limits.maxCompleted - |ms[id].data|, bound);
    if |ms[id].data| <= limits.maxCompleted then kept else kept - {id}
  }

  predicate Taken(ms: Modules, ddb: Ddb) { Matches(ms, ddb) && Takes(ms[ddb.moduleId], ddb.block) }

  /** A block: ignored, taken, or the one that completes its module. */
  ghost function AfterDdb(limits: Limits, bound: nat, ms: Modules, ddb: Ddb): Modules {
    if !Taken(ms, ddb) then ms
    else
      var ms' := ms[ddb.moduleId := Absorb(ms[ddb.moduleId], ddb.block, ddb.data)];
      if ms'[ddb.moduleId].completed then AfterCompletion(limits, bound, ms', ddb.moduleId) else ms'
  }

  datatype Answer = Answer(result: DdbResult, out: Option<Module>)

  ghost function AnswerTo(limits: Limits, ms: Modules, ddb: Ddb): Answer {
    if !Taken(ms, ddb) then Answer(Ignored, None)
    else
      var m := ms[ddb.moduleId];
      var a := Absorb(m, ddb.block, ddb.data);
      if !a.completed then Answer(if m.received[ddb.block] then Duplicate else NewBlock, None)
      else if |a.data| > limits.maxCompleted then Answer(OverBudget, None)
      else Answer(Completed, Some(a))
  }

  predicate Restorable(ms: Modules, id: nat, downloadId: nat, version: nat, size: nat, data: seq<Byte>) {
    && id in ms && !ms[id].completed && ms[id].downloadId == downloadId && ms[id].info.version == version
    && ms[id].info.size == size && |data| == size && ms[id].blockSize > 0
  }

  /** A module completed from a cache. */
  ghost function AfterRestore(limits: Limits, bound: nat, ms: Modules, id: nat, downloadId: nat, version: nat,
                              size: nat,
                              data: seq<Byte>): Modules {
    if !Restorable(ms, id, downloadId, version, size, data) then ms
    else
      var count := BlockCount(size, ms[id].blockSize);
      var m := ms[id].(data := data, received := [], completed := true, count := count);
      AfterCompletion(limits, bound, ms[id := m], id)
  }

  predicate Releasable(ms: Modules, id: nat) { id in ms && ms[id].completed && ms[id].data != [] }

  /** A completed module without its data. */
  function AfterRelease(ms: Modules, id: nat): Modules {
    if Releasable(ms, id) then ms[id := ms[id].(data := [])] else ms
  }

  predicate Resettable(ms: Modules, id: nat, downloadId: nat, version: nat) {
    && id in ms && ms[id].completed && ms[id].downloadId == downloadId && ms[id].info.version == version
    && ms[id].info.size > 0 && ms[id].blockSize > 0
  }

  /** A completed module as a fresh download. */
  ghost function AfterInvalidate(p: Point, id: nat, downloadId: nat, version: nat): Point {
    if !Resettable(p.modules, id, downloadId, version) then p
    else
      var m := p.modules[id];
      Point(p.modules[id := NewModule(m.info, downloadId, m.blockSize, p.generation + 1)], p.generation + 1)
  }

  class Carousel {
    const limits: Limits
    var modules: Modules
    var completedBytes: int
    var inFlightBytes: int
    var generation: nat
    var rejected: map<nat, Reason>
    ghost const bound: nat

    function Here(): Point
      reads this
    {
      Point(modules, generation)
    }

    /** The counters equal what the modules occupy. */
    ghost predicate Books()
      reads this
    {
      && Sane(Here(), bound)
      && inFlightBytes == Total(modules, false, bound)
      && completedBytes == Total(modules, true, bound)
      && rejected.Keys !! modules.Keys
    }

    ghost predicate Valid()
      reads this
    {
      Books() && completedBytes <= limits.maxCompleted
    }

    constructor (limits: Limits)
      ensures Valid() && this.limits == limits && modules == map[] && bound >= 0x1_0000
    {
      this.limits := limits;
      modules, completedBytes, inFlightBytes, generation, rejected := map[], 0, 0, 0, map[];
      var n := 0x1_0000;
      bound := n;
      new;
      EmptyTotal(false, bound);
      EmptyTotal(true, bound);
    }

    // ---------------------------------------------------------------- removing

    method Remove(id: nat)
      requires Books()
      modifies this`modules, this`completedBytes, this`inFlightBytes
      ensures Books() && modules == old(modules) - {id}
      ensures completedBytes == old(completedBytes) - LoadOf(old(modules), id, true)
      ensures inFlightBytes == old(inFlightBytes) - LoadOf(old(modules), id, false)
    {
      if id !in modules { return; }
      assert EntryOk(modules, generation, bound, id);
      TotalRemove(modules, id, true, bound);
      TotalRemove(modules, id, false, bound);
      if modules[id].completed {
        completedBytes := completedBytes - |modules[id].data|;
      } else {
        inFlightBytes := inFlightBytes - modules[id].info.size;
      }
      RemovalKeeps(modules, generation, bound, id);
      modules := modules - {id};
    }

    method FindOldest(done: bool, except: int) returns (found: bool, oldest: nat)
      ensures found ==> Oldest(modules, done, except, oldest)
      ensures !found ==> forall id :: !Candidate(modules, done, except, id)
    {
      found, oldest := false, 0;
      var todo := modules.Keys;
      while todo != {}
        invariant todo <= modules.Keys
        invariant found ==> Candidate(modules, done, except, oldest)
        invariant forall id :: Candidate(modules, done, except, id) && id !in todo ==>
                    found && modules[oldest].generation <= modules[id].generation
        decreases todo
      {
        var id :| id in todo;
        todo := todo - {id};
        if Candidate(modules, done, except, id) && (!found || modules[id].generation < modules[oldest].generation) {
          found, oldest := true, id;
        }
      }
    }

    /** Evicts the oldest incomplete module, if there is one. */
    method EvictOldestInFlight() returns (evicted: bool, ghost id: nat)
      requires Books()
      modifies this`modules, this`completedBytes, this`inFlightBytes
      ensures Books() && completedBytes <= old(completedBytes) && inFlightBytes <= old(inFlightBytes)
      ensures evicted ==> Oldest(old(modules), false, -1, id) && modules == old(modules) - {id}
      ensures !evicted ==> modules == old(modules) && forall k :: !Candidate(modules, false, -1, k)
    {
      var oldest;
      evicted, oldest := FindOldest(false, -1);
      id := oldest;
      if evicted { Remove(oldest); }
    }

    /** Evicts the oldest completed module that still has its data, other than `except`. */
    method EvictOldestCompletedExcept(except: nat) returns (evicted: bool, ghost id: nat)
      requires Books()
      modifies this`modules, this`completedBytes, this`inFlightBytes
      ensures Books() && completedBytes <= old(completedBytes) && inFlightBytes <= old(inFlightBytes)
      ensures evicted ==> Oldest(old(modules), true, except, id) && modules == old(modules) - {id}
      ensures !evicted ==> modules == old(modules) && forall k :: !Candidate(modules, true, except, k)
    {
      var oldest;
      evicted, oldest := FindOldest(true, except);
      id := oldest;
      if evicted { Remove(oldest); }
    }

    /** Makes room for `size` more in-flight bytes: an incomplete module stays exactly when it fits together with the
        incomplete ones not older than it and the new size. */
    method MakeRoom(size: nat)
      requires Books() && size <= limits.maxInFlight
      modifies this`modules, this`completedBytes, this`inFlightBytes
      ensures Books() && completedBytes <= old(completedBytes)
      ensures inFlightBytes + size <= limits.maxInFlight
      ensures modules == Kept(old(modules), false, -1, limits.maxInFlight - size, bound)
    {
      ghost var room := limits.maxInFlight - size;
      NothingEvicted(modules, false, -1);
      while inFlightBytes + size > limits.maxInFlight
        invariant Books() && completedBytes <= old(completedBytes)
        invariant EvictedOldest(old(modules), modules, false, -1)
        invariant Overfull(old(modules), modules, false, -1, room, bound)
        decreases |modules|
      {
        ghost var before := modules;
        TotalIsYounger(modules, false, -1, bound);
        var evicted, id := EvictOldestInFlight();
        if !evicted {
          InFlightNeedsCandidate(modules, bound);
          break;
        }
        OverfullNext(old(modules), before, false, -1, room, id, bound);
        EvictAnother(old(modules), before, false, -1, id);
        assert id in before;
      }
      TotalIsYounger(modules, false, -1, bound);
      KeptReached(old(modules), modules, false, -1, room, bound);
    }

    /** Puts a module in place of whatever has its id. */
    method Put(id: nat, m: Module)
      requires Books() && id < bound && ModuleOk(m) && m.info.id == id && id !in rejected
      requires m.generation <= generation && forall k | k in modules && k != id :: modules[k].generation != m.generation
      modifies this`modules, this`completedBytes, this`inFlightBytes
      ensures Books() && modules == old(modules)[id := m]
      ensures completedBytes == old(completedBytes) - LoadOf(old(modules), id, true) + Load(m, true)
      ensures inFlightBytes == old(inFlightBytes) - LoadOf(old(modules), id, false) + Load(m, false)
    {
      TotalUpdate(modules, id, m, true, bound);
      TotalUpdate(modules, id, m, false, bound);
      PutKeeps(modules, modules[id := m], generation, bound, id, m);
      if id in modules {
        completedBytes := completedBytes - Load(modules[id], true);
        inFlightBytes := inFlightBytes - Load(modules[id], false);
      }
      completedBytes := completedBytes + Load(m, true);
      inFlightBytes := inFlightBytes + Load(m, false);
      modules := modules[id := m];
    }

    // -------------------------------------------------------------- announcements

    method Reject(info: Info, reason: Reason)
      requires Books() && info.id !in modules
      modifies this`rejected
      ensures Books() && rejected == old(rejected)[info.id := reason]
    {
      rejected := rejected[info.id := reason];
    }

    /** One announced module: refused, already current, too large for the budget, or allocated anew. */
    method ObserveModule(downloadId: nat, blockSize: nat, info: Info) returns (accepted: bool)
      requires Valid() && info.id < bound
      modifies this
      ensures Valid() && generation >= old(generation)
      ensures old(inFlightBytes) <= limits.maxInFlight || generation > old(generation) ==>
                inFlightBytes <= limits.maxInFlight
      ensures Here() == AfterInfo(limits, bound, old(Here()), downloadId, blockSize, info)
      ensures accepted == Accepts(limits, old(modules), downloadId, blockSize, info)
      ensures rejected == if accepted then old(rejected) - {info.id}
              else old(rejected)[info.id := Why(blockSize, limits, info)]
    {
      if Refused(limits, blockSize, info) {
        Remove(info.id);
        Reject(info, Why(blockSize, limits, info));
        return false;
      }
      rejected := rejected - {info.id};
      if Current(modules, downloadId, blockSize, info) { return true; }
      Remove(info.id);
      if info.size > limits.maxInFlight {
        Reject(info, InFlightBudgetExceeded);
        return false;
      }
      MakeRoom(info.size);
      if inFlightBytes + info.size > limits.maxInFlight {
        assert false;
      }
      Allocate(downloadId, blockSize, info);
      return true;
    }

    method Allocate(downloadId: nat, blockSize: nat, info: Info)
      requires Books() && info.id < bound && info.id !in modules && info.id !in rejected && info.size > 0
               && blockSize > 0
      modifies this`modules, this`completedBytes, this`inFlightBytes, this`generation
      ensures Books() && generation == old(generation) + 1
      ensures modules == old(modules)[info.id := NewModule(info, downloadId, blockSize, generation)]
      ensures completedBytes == old(completedBytes) && inFlightBytes == old(inFlightBytes) + info.size
    {
      NewGeneration(modules, generation, generation + 1, bound);
      generation := generation + 1;
      NewModuleOk(info, downloadId, blockSize, generation);
      Put(info.id, NewModule(info, downloadId, blockSize, generation));
    }

    /** An announcement: its modules in turn, and what is left is announced. */
    method ObserveDII(dii: Dii) returns (accepted: seq<Info>)
      requires Valid() && forall m | m in dii.modules :: m.id < bound
      modifies this
      ensures Valid() && generation >= old(generation)
      ensures old(inFlightBytes) <= limits.maxInFlight || generation > old(generation) ==>
                inFlightBytes <= limits.maxInFlight
      ensures modules.Keys <= Ids(dii.modules) && rejected.Keys <= Ids(dii.modules)
      ensures Here() == AfterDii(limits, bound, old(Here()), dii)
      ensures accepted == Accepted(limits, bound, old(Here()), dii.downloadId, dii.blockSize, dii.modules)
    {
      accepted := [];
      var seen: set<nat> := {};
      for i := 0 to |dii.modules|
        invariant Valid() && generation >= old(generation) && seen == Ids(dii.modules[..i])
        invariant old(inFlightBytes) <= limits.maxInFlight || generation > old(generation) ==>
                    inFlightBytes <= limits.maxInFlight
        invariant Here() == AfterInfos(limits, bound, old(Here()), dii.downloadId, dii.blockSize, dii.modules[..i])
        invariant accepted == Accepted(limits, bound, old(Here()), dii.downloadId, dii.blockSize, dii.modules[..i])
      {
        var info := dii.modules[i];
        NextInfo(limits, bound, old(Here()), dii.downloadId, dii.blockSize, dii.modules, i);
        seen := seen + {info.id};
        var ok := ObserveModule(dii.downloadId, dii.blockSize, info);
        if ok { accepted := accepted + [info]; }
      }
      assert dii.modules[..|dii.modules|] == dii.modules;
      RemoveUnseen(seen);
      ForgetUnseen(seen);
    }

    method RemoveUnseen(seen: set<nat>)
      requires Valid()
      modifies this`modules, this`completedBytes, this`inFlightBytes
      ensures Valid() && modules == Only(old(modules), seen)
      ensures inFlightBytes <= old(inFlightBytes)
    {
      var todo := modules.Keys - seen;
      while todo != {}
        invariant Valid() && todo == modules.Keys - seen && inFlightBytes <= old(inFlightBytes)
        invariant forall id | id in seen :: id in modules <==> id in old(modules)
        invariant forall id | id in modules :: id in old(modules) && modules[id] == old(modules)[id]
        decreases todo
      {
        var id :| id in todo;
        todo := todo - {id};
        Remove(id);
      }
      forall id | id in modules ensures id in seen { assert id !in modules.Keys - seen; }
    }

    method ForgetUnseen(seen: set<nat>)
      requires Valid()
      modifies this`rejected
      ensures Valid() && rejected.Keys == old(rejected).Keys * seen
    {
      var todo := rejected.Keys - seen;
      while todo != {}
        invariant Valid() && todo == rejected.Keys - seen && rejected.Keys * seen == old(rejected).Keys * seen
        decreases todo
      {
        var id :| id in todo;
        todo := todo - {id};
        rejected := rejected - {id};
      }
      forall id | id in rejected.Keys ensures id in seen { assert id !in rejected.Keys - seen; }
    }

    // --------------------------------------------------------------------- blocks

    /** A block: ignored, taken, or the one that completes its module. */
    method ObserveDDB(ddb: Ddb) returns (r: DdbResult, out: Option<Module>)
      requires Valid()
      modifies this
      ensures Valid() && inFlightBytes <= old(inFlightBytes) && generation == old(generation)
      ensures modules == AfterDdb(limits, bound, old(modules), ddb)
              && Answer(r, out) == AnswerTo(limits, old(modules), ddb)
    {
      var id := ddb.moduleId;
      out := None;
      if !Matches(modules, ddb) || modules[id].completed { return Ignored, None; }
      var m := modules[id];
      assert EntryOk(modules, generation, bound, id);
      if ddb.block >= |m.received| || ddb.block * m.blockSize >= |m.data| { return Ignored, None; }
      var a := Absorb(m, ddb.block, ddb.data);
      AbsorbOk(m, ddb.block, ddb.data);
      forall k | k in modules && k != id ensures modules[k].generation != a.generation { assert Apart(modules, id, k); }
      Put(id, a);
      if !a.completed { return if m.received[ddb.block] then Duplicate else NewBlock, None; }
      var fits := KeepCompletedBudget(id);
      if !fits { return OverBudget, None; }
      return Completed, Some(a);
    }

    /** Evicts completed modules until the budget holds again: one stays exactly when it fits together with the new one
        and the others not older than it, and the new one exactly when it fits alone. */
    method KeepCompletedBudget(id: nat) returns (fits: bool)
      requires Books() && id in modules && modules[id].completed
      modifies this`modules, this`completedBytes, this`inFlightBytes
      ensures Valid() && inFlightBytes <= old(inFlightBytes)
      ensures fits <==> |old(modules)[id].data| <= limits.maxCompleted
      ensures modules == AfterCompletion(limits, bound, old(modules), id)
    {
      ghost var room := limits.maxCompleted - |modules[id].data|;
      NothingEvicted(modules, true, id);
      assert EntryOk(modules, generation, bound, id);
      while completedBytes > limits.maxCompleted
        invariant Books() && inFlightBytes <= old(inFlightBytes) && id in modules && modules[id] == old(modules)[id]
        invariant EvictedOldest(old(modules), modules, true, id)
        invariant Overfull(old(modules), modules, true, id, room, bound)
        decreases |modules|
      {
        ghost var before := modules;
        TotalIsYounger(modules, true, id, bound);
        var evicted, gone := EvictOldestCompletedExcept(id);
        if !evicted { break; }
        OverfullNext(old(modules), before, true, id, room, gone, bound);
        EvictAnother(old(modules), before, true, id, gone);
        assert gone in before;
      }
      TotalIsYounger(modules, true, id, bound);
      KeptReached(old(modules), modules, true, id, room, bound);
      if forall k :: !Candidate(modules, true, id, k) { OnlyOneLeft(modules, id, bound); }
      fits := completedBytes <= limits.maxCompleted;
      if !fits { Remove(id); }
    }

    // ------------------------------------------------- released and cached payloads

    /** A completed module with its data, as callers read it. */
    method ModuleOf(id: nat) returns (m: Option<Module>)
      requires Valid()
      ensures m.Some? <==> id in modules && modules[id].completed && modules[id].data != []
      ensures m.Some? ==> m.value == modules[id] && |m.value.data| == m.value.info.size
    {
      assert EntryOk(modules, generation, bound, id);
      if id !in modules || !modules[id].completed || |modules[id].data| != modules[id].info.size { return None; }
      return Some(modules[id]);
    }

    /** Drops a completed module's data and keeps its entry. */
    method ReleaseCompletedPayload(id: nat) returns (released: bool)
      requires Valid()
      modifies this
      ensures Valid() && inFlightBytes == old(inFlightBytes) && generation == old(generation)
      ensures released == Releasable(old(modules), id) && modules == AfterRelease(old(modules), id)
    {
      assert EntryOk(modules, generation, bound, id);
      if id !in modules || !modules[id].completed || |modules[id].data| != modules[id].info.size { return false; }
      forall k | k in modules && k != id ensures modules[k].generation != modules[id].generation {
        assert Apart(modules, id, k);
      }
      Put(id, modules[id].(data := []));
      return true;
    }

    /** Starts a completed module over as a fresh download; this alone may overrun the in-flight budget. */
    method Invalidate(id: nat, downloadId: nat, version: nat) returns (restarted: bool)
      requires Valid()
      modifies this
      ensures Valid()
      ensures restarted <==>
                && id in old(modules) && old(modules)[id].completed && old(modules)[id].downloadId == downloadId
                && old(modules)[id].info.version == version
      ensures Here() == AfterInvalidate(old(Here()), id, downloadId, version)
      ensures inFlightBytes == old(inFlightBytes) + if restarted then old(modules)[id].info.size else 0
    {
      assert EntryOk(modules, generation, bound, id);
      if id !in modules || !modules[id].completed || modules[id].downloadId != downloadId
         || modules[id].info.version != version {
        return false;
      }
      var m := modules[id];
      NewGeneration(modules, generation, generation + 1, bound);
      generation := generation + 1;
      NewModuleOk(m.info, downloadId, m.blockSize, generation);
      Put(id, NewModule(m.info, downloadId, m.blockSize, generation));
      return true;
    }

    /** Completes an announced module from a cache when it is the same module. */
    method Restore(id: nat, downloadId: nat, version: nat, size: nat, data: seq<Byte>) returns (restored: bool)
      requires Valid()
      modifies this
      ensures Valid() && inFlightBytes <= old(inFlightBytes) && generation == old(generation)
      ensures restored <==> Restorable(old(modules), id, downloadId, version, size, data) && size <= limits.maxCompleted
      ensures modules == AfterRestore(limits, bound, old(modules), id, downloadId, version, size, data)
    {
      if !Restorable(modules, id, downloadId, version, size, data) { return false; }
      assert EntryOk(modules, generation, bound, id);
      var a := modules[id].(data := data, received := [], completed := true,
          count := BlockCount(size, modules[id].blockSize));
      forall k | k in modules && k != id ensures modules[k].generation != a.generation { assert Apart(modules, id, k); }
      Put(id, a);
      restored := KeepCompletedBudget(id);
    }
  }

  lemma OnlyOneLeft(ms: Modules, id: nat, bound: nat)
    requires forall k :: !Candidate(ms, true, id, k)
    requires id in ms && id < bound
    ensures Total(ms, true, bound) <= Load(ms[id], true)
  {
    forall i | 0 <= i < bound && i in ms ensures i != id ==> Load(ms[i], true) == 0 {
      assert !Candidate(ms, true, id, i);
    }
    TotalOnly(ms, id, true, bound);
  }

  function Ids(modules: seq<Info>): set<nat> { set m | m in modules :: m.id }

  lemma NextInfo(limits: Limits, bound: nat, p: Point, downloadId: nat, blockSize: nat, infos: seq<Info>, i: nat)
    requires i < |infos|
    ensures infos[i] in infos && Ids(infos[..i + 1]) == Ids(infos[..i]) + {infos[i].id}
    ensures var q := AfterInfos(limits, bound, p, downloadId, blockSize, infos[..i]);
            && AfterInfos(limits, bound, p, downloadId, blockSize, infos[..i + 1])
               == AfterInfo(limits, bound, q, downloadId, blockSize, infos[i])
            && Accepted(limits, bound, p, downloadId, blockSize, infos[..i + 1])
               == Accepted(limits, bound, p, downloadId, blockSize, infos[..i])
                  + (if Accepts(limits, q.modules, downloadId, blockSize, infos[i]) then [infos[i]] else [])
  {
    var next := infos[..i + 1];
    assert next[..i] == infos[..i] && next[i] == infos[i] && next == infos[..i] + [infos[i]];
  }

  lemma PutKeeps(ms: Modules, ms': Modules, generation: nat, bound: nat, id: nat, m: Module)
    requires (forall x :: EntryOk(ms, generation, bound, x)) && forall a, b :: Apart(ms, a, b)
    requires id < bound && ModuleOk(m) && m.info.id == id && m.generation <= generation && ms' == ms[id := m]
    requires forall k | k in ms && k != id :: ms[k].generation != m.generation
    ensures forall x :: EntryOk(ms', generation, bound, x)
    ensures forall a, b :: Apart(ms', a, b)
  {
    forall x ensures EntryOk(ms', generation, bound, x) { assert EntryOk(ms, generation, bound, x); }
    forall a, b ensures Apart(ms', a, b) { assert Apart(ms, a, b); }
  }

  lemma NewGeneration(ms: Modules, generation: nat, next: nat, bound: nat)
    requires generation < next && forall x :: EntryOk(ms, generation, bound, x)
    ensures forall x :: EntryOk(ms, next, bound, x)
    ensures forall k | k in ms :: ms[k].generation < next
  {
    forall x ensures EntryOk(ms, next, bound, x) { assert EntryOk(ms, generation, bound, x); }
    forall k | k in ms ensures ms[k].generation < next { assert EntryOk(ms, generation, bound, k); }
  }

  lemma {:induction false} EmptyTotal(done: bool, n: nat)
    ensures Total(map[], done, n) == 0
  {
    if n > 0 { EmptyTotal(done, n - 1); }
  }

  lemma RemovalKeeps(ms: Modules, generation: nat, bound: nat, id: nat)
    requires (forall x :: EntryOk(ms, generation, bound, x)) && forall a, b :: Apart(ms, a, b)
    ensures forall x :: EntryOk(ms - {id}, generation, bound, x)
    ensures forall a, b :: Apart(ms - {id}, a, b)
  {
    forall x ensures EntryOk(ms - {id}, generation, bound, x) { assert EntryOk(ms, generation, bound, x); }
    forall a, b ensures Apart(ms - {id}, a, b) { assert Apart(ms, a, b); }
  }

  lemma NothingEvicted(ms: Modules, done: bool, except: int)
    ensures EvictedOldest(ms, ms, done, except)
  {}

  lemma InFlightNeedsCandidate(ms: Modules, bound: nat)
    requires forall id :: !Candidate(ms, false, -1, id)
    ensures Total(ms, false, bound) == 0
  {
    forall i | 0 <= i < bound && i in ms ensures Load(ms[i], false) == 0 { assert !Candidate(ms, false, -1, i); }
    TotalOnly(ms, -1, false, bound);
  }
}
