/** The life of a completed module: how it becomes readable, what changes it, and what leaves it alone. */
module CarouselCache {
  import opened CarouselModel
  import opened Carousel
  import opened CarouselRun

  ghost predicate Readable(p: Point, id: nat) {
    id in p.modules && p.modules[id].completed && p.modules[id].data != []
  }

  /** The event completes the module: its last block, or a cached copy of the announced size. */
  ghost predicate Completes(p: Point, e: Event, id: nat) {
    && id in p.modules && !p.modules[id].completed
    && var m := p.modules[id];
    match e
    case Piece(ddb) =>
      && ddb.moduleId == id && ddb.downloadId == m.downloadId && ddb.version == m.info.version
      && ddb.block < |m.received| && !m.received[ddb.block] && m.count + 1 == |m.received|
      && ddb.block * m.blockSize < m.info.size
    case Restore(i, downloadId, version, size, data) =>
      i == id && downloadId == m.downloadId && version == m.info.version && size == m.info.size == |data|
    case _ => false
  }

  /** A module becomes readable exactly by being completed within the budget, and reads as what completed it. */
  lemma BecomesReadableExactly(limits: Limits, bound: nat, p: Point, e: Event, id: nat)
    requires Sane(p, bound) && !Readable(p, id)
    ensures var q := After(limits, bound, p, e);
            && (Readable(q, id) <==> Completes(p, e, id) && p.modules[id].info.size <= limits.maxCompleted)
            && (Readable(q, id) && e.Restore? ==> q.modules[id].data == e.data)
  {
    assert EntryOk(p.modules, p.generation, bound, id);
    match e
    case Piece(ddb) =>
      if Taken(p.modules, ddb) {
        assert EntryOk(p.modules, p.generation, bound, ddb.moduleId);
        AbsorbOk(p.modules[ddb.moduleId], ddb.block, ddb.data);
      }
    case Announce(dii) => InfosKeepUnfinished(limits, bound, p, dii.downloadId, dii.blockSize, dii.modules, id);
    case Restore(i, downloadId, version, size, data) =>
    case Release(i) =>
    case Invalidate(i, downloadId, version) =>
  }

  /** An announcement makes nothing readable. */
  lemma {:induction false} InfosKeepUnfinished(limits: Limits, bound: nat, p: Point, downloadId: nat, blockSize: nat,
                                               infos: seq<Info>, id: nat)
    requires !Readable(p, id)
    ensures !Readable(AfterInfos(limits, bound, p, downloadId, blockSize, infos), id)
  {
    if infos != [] { InfosKeepUnfinished(limits, bound, p, downloadId, blockSize, infos[..|infos| - 1], id); }
  }

  /** A completed module, read or released, that an announcement names as it is stays as it is. */
  lemma {:induction false} AnnouncedAgainStays(limits: Limits, bound: nat, p: Point, downloadId: nat, blockSize: nat,
                                               infos: seq<Info>, id: nat)
    requires id in p.modules && p.modules[id].completed
    requires forall info | info in infos && info.id == id ::
               !Refused(limits, blockSize, info) && Current(p.modules, downloadId, blockSize, info)
    ensures var q := AfterInfos(limits, bound, p, downloadId, blockSize, infos);
            id in q.modules && q.modules[id] == p.modules[id]
  {
    if infos != [] {
      var n := |infos| - 1;
      AnnouncedAgainStays(limits, bound, p, downloadId, blockSize, infos[..n], id);
      assert infos[n] in infos;
    }
  }

  /** What an event other than an announcement does to a completed module: releasing it takes the data alone,
      invalidating it starts it over with no block, and nothing else changes it; it can only go for one that
      completes. */
  lemma CompletedStaysExactly(limits: Limits, bound: nat, p: Point, e: Event, id: nat)
    requires Sane(p, bound) && id in p.modules && p.modules[id].completed && !e.Announce?
    ensures var m, q := p.modules[id], After(limits, bound, p, e);
            if e == Release(id) then id in q.modules && q.modules[id] == m.(data := [])
            else if e == Invalidate(id, m.downloadId, m.info.version) then
              && id in q.modules && !q.modules[id].completed && q.modules[id].info == m.info
              && q.modules[id].blockSize == m.blockSize && q.modules[id].downloadId == m.downloadId
              && q.modules[id].count == 0 && (forall k | 0 <= k < |q.modules[id].received| ::
                     !q.modules[id].received[k])
              && q.modules[id].generation > p.generation
            else if id in q.modules then q.modules[id] == m
            else m.data != [] && exists other :: other != id && Completes(p, e, other)
  {
    assert EntryOk(p.modules, p.generation, bound, id);
    match e
    case Piece(ddb) =>
      if Taken(p.modules, ddb) {
        assert EntryOk(p.modules, p.generation, bound, ddb.moduleId);
        AbsorbOk(p.modules[ddb.moduleId], ddb.block, ddb.data);
        if id !in After(limits, bound, p, e).modules { assert Completes(p, e, ddb.moduleId); }
      }
    case Restore(i, downloadId, version, size, data) =>
      if id !in After(limits, bound, p, e).modules { assert Completes(p, e, i); }
    case Release(i) =>
    case Invalidate(i, downloadId, version) =>
  }
}
