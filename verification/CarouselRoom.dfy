/**
 Making room in a carousel (ts/dsmcc_carousel.go): which modules the evictors take, and that evicting the oldest
 until the rest fits keeps exactly the modules that fit together with everything younger.
 */
module CarouselRoom {
  import opened CarouselModel

  // ------------------------------------------------------------------ eviction

  /** A module the evictor may take: an incomplete one, or a completed one that still has its data. */
  predicate Candidate(ms: Modules, done: bool, except: int, id: nat) {
    id in ms && ms[id].completed == done && id != except && (done ==> ms[id].data != [])
  }

  ghost predicate Oldest(ms: Modules, done: bool, except: int, id: nat) {
    Candidate(ms, done, except, id)
    && forall k :: Candidate(ms, done, except, k) ==> ms[id].generation <= ms[k].generation
  }

  /** Whatever left was a candidate, and older than any candidate that stayed. */
  ghost predicate LeftFirst(before: Modules, after: Modules, done: bool, except: int, e: nat, k: nat) {
    e in before && e !in after ==>
      Candidate(before, done, except, e)
      && (Candidate(after, done, except, k) && k in before ==> before[e].generation < before[k].generation)
  }

  ghost predicate Stayed(before: Modules, after: Modules, id: nat) {
    id in after ==> id in before && after[id] == before[id]
  }

  /** Only candidates left, oldest first. */
  ghost predicate EvictedOldest(before: Modules, after: Modules, done: bool, except: int) {
    (forall id :: Stayed(before, after, id)) && forall e, k :: LeftFirst(before, after, done, except, e, k)
  }

  ghost predicate Apart(ms: Modules, a: nat, b: nat) {
    a in ms && b in ms && a != b ==> ms[a].generation != ms[b].generation
  }

  lemma EvictAnother(before: Modules, ms: Modules, done: bool, except: int, id: nat)
    requires EvictedOldest(before, ms, done, except) && Oldest(ms, done, except, id) && forall a, b ::
               Apart(before, a, b)
    ensures EvictedOldest(before, ms - {id}, done, except)
  {
    var after := ms - {id};
    forall x ensures Stayed(before, after, x) { assert Stayed(before, ms, x); }
    assert Stayed(before, ms, id);
    forall e, k ensures LeftFirst(before, after, done, except, e, k) {
      assert LeftFirst(before, ms, done, except, e, k) && Stayed(before, ms, k) && Apart(before, e, k);
      if Candidate(after, done, except, k) { assert Candidate(ms, done, except, k); }
    }
  }

  // ------------------------------------------------------------- what is kept

  /** What module `i` adds to the load of the modules not older than `g`, other than `except`. */
  function Share(ms: Modules, done: bool, except: int, g: nat, i: nat): nat {
    if i in ms && i != except && ms[i].generation >= g then Load(ms[i], done) else 0
  }

  /** The load of the modules below `n` that are not older than `g`, other than `except`. */
  ghost function Younger(ms: Modules, done: bool, except: int, g: nat, n: nat): nat {
    if n == 0 then 0 else Younger(ms, done, except, g, n - 1) + Share(ms, done, except, g, n - 1)
  }

  /** Evicting leaves every module that is no candidate, or fits into `room` with all candidates not older than it. */
  ghost function Kept(ms: Modules, done: bool, except: int, room: int, n: nat): Modules {
    map id | && id in ms
             && (Candidate(ms, done, except, id) ==> Younger(ms, done, except, ms[id].generation, n) <= room) :: ms[id]
  }

  lemma {:induction false} YoungerLe(ms: Modules, ms': Modules, done: bool, except: int, g: nat, g': nat, n: nat)
    requires forall i | 0 <= i < n :: Share(ms, done, except, g, i) <= Share(ms', done, except, g', i)
    ensures Younger(ms, done, except, g, n) <= Younger(ms', done, except, g', n)
  {
    if n > 0 { YoungerLe(ms, ms', done, except, g, g', n - 1); }
  }

  lemma YoungerFalls(ms: Modules, done: bool, except: int, g: nat, g': nat, n: nat)
    requires g <= g'
    ensures Younger(ms, done, except, g', n) <= Younger(ms, done, except, g, n)
  {
    YoungerLe(ms, ms, done, except, g', g, n);
  }

  lemma {:induction false} TotalIsYounger(ms: Modules, done: bool, except: int, n: nat)
    ensures Total(ms, done, n)
         == Younger(ms, done, except, 0, n) + (if 0 <= except < n && except in ms then Load(ms[except], done) else 0)
  {
    if n > 0 { TotalIsYounger(ms, done, except, n - 1); }
  }

  lemma {:induction false} YoungerPut(ms: Modules, id: nat, m: Module, done: bool, except: int, g: nat, n: nat)
    requires id < n && id != except && id !in ms && m.generation >= g
    ensures Younger(ms[id := m], done, except, g, n) == Younger(ms, done, except, g, n) + Load(m, done)
  {
    if id == n - 1 {
      YoungerLe(ms, ms[id := m], done, except, g, g, n - 1);
      YoungerLe(ms[id := m], ms, done, except, g, g, n - 1);
    } else {
      YoungerPut(ms, id, m, done, except, g, n - 1);
    }
  }

  // ------------------------------------------------- the evicting loops reach it

  /** Whatever has left did not fit. */
  ghost predicate Overfull(before: Modules, ms: Modules, done: bool, except: int, room: int, n: nat) {
    forall e :: e in before && e !in ms ==> Younger(before, done, except, before[e].generation, n) > room
  }

  /** The modules not older than the oldest candidate are all there are, as far as the load goes. */
  lemma OldestShare(before: Modules, ms: Modules, done: bool, except: int, id: nat, i: nat)
    requires EvictedOldest(before, ms, done, except) && Oldest(ms, done, except, id)
    ensures id in before && Share(before, done, except, before[id].generation, i) == Share(ms, done, except, 0, i)
  {
    assert Stayed(before, ms, id) && Stayed(before, ms, i) && LeftFirst(before, ms, done, except, i, id);
    assert i in ms && !Candidate(ms, done, except, i) && i != except ==> Load(ms[i], done) == 0;
  }

  lemma OldestLoad(before: Modules, ms: Modules, done: bool, except: int, id: nat, n: nat)
    requires EvictedOldest(before, ms, done, except) && Oldest(ms, done, except, id)
    ensures id in before && Younger(before, done, except, before[id].generation, n) == Younger(ms, done, except, 0, n)
  {
    assert Stayed(before, ms, id);
    var g := before[id].generation;
    forall i | 0 <= i < n ensures Share(before, done, except, g, i) == Share(ms, done, except, 0, i) {
      OldestShare(before, ms, done, except, id, i);
    }
    YoungerLe(before, ms, done, except, g, 0, n);
    YoungerLe(ms, before, done, except, 0, g, n);
  }

  /** Evicting the oldest while the rest is too much keeps that so. */
  lemma OverfullNext(before: Modules, ms: Modules, done: bool, except: int, room: int, id: nat, n: nat)
    requires EvictedOldest(before, ms, done, except) && Oldest(ms, done, except, id)
    requires Overfull(before, ms, done, except, room, n) && Younger(ms, done, except, 0, n) > room
    ensures Overfull(before, ms - {id}, done, except, room, n)
  {
    OldestLoad(before, ms, done, except, id, n);
  }

  /** A candidate that stays fits with everything not older. */
  lemma SurvivorFits(before: Modules, ms: Modules, done: bool, except: int, k: nat, n: nat)
    requires EvictedOldest(before, ms, done, except) && Candidate(ms, done, except, k)
    ensures k in before && Younger(before, done, except, before[k].generation, n) <= Younger(ms, done, except, 0, n)
  {
    assert Stayed(before, ms, k);
    var g := before[k].generation;
    forall i | 0 <= i < n ensures Share(before, done, except, g, i) <= Share(ms, done, except, 0, i) {
      assert Stayed(before, ms, i) && LeftFirst(before, ms, done, except, i, k);
    }
    YoungerLe(before, ms, done, except, g, 0, n);
  }

  /** When the rest fits, or nothing is left to evict, the evictions have kept what fits. */
  lemma KeptReached(before: Modules, ms: Modules, done: bool, except: int, room: int, n: nat)
    requires EvictedOldest(before, ms, done, except) && Overfull(before, ms, done, except, room, n)
    requires Younger(ms, done, except, 0, n) <= room || forall k :: !Candidate(ms, done, except, k)
    ensures ms == Kept(before, done, except, room, n)
  {
    var kept := Kept(before, done, except, room, n);
    forall id ensures (id in ms <==> id in kept) && (id in ms ==> ms[id] == kept[id]) {
      assert Stayed(before, ms, id) && LeftFirst(before, ms, done, except, id, id);
      if Candidate(ms, done, except, id) { SurvivorFits(before, ms, done, except, id, n); }
    }
  }

  // ------------------------------------------------------- what it means to be kept

  /** What is kept is what evicting oldest first leaves. */
  lemma KeptEvictsOldest(ms: Modules, done: bool, except: int, room: int, n: nat)
    ensures EvictedOldest(ms, Kept(ms, done, except, room, n), done, except)
  {
    var kept := Kept(ms, done, except, room, n);
    forall id ensures Stayed(ms, kept, id) {}
    forall e, k ensures LeftFirst(ms, kept, done, except, e, k) {
      if e in ms && e !in kept && Candidate(kept, done, except, k) && ms[k].generation <= ms[e].generation {
        YoungerFalls(ms, done, except, ms[k].generation, ms[e].generation, n);
      }
    }
  }

  /** Nothing leaves when everything fits. */
  lemma KeptAll(ms: Modules, done: bool, except: int, room: int, n: nat)
    requires Younger(ms, done, except, 0, n) <= room
    ensures Kept(ms, done, except, room, n) == ms
  {
    forall id | id in ms ensures Younger(ms, done, except, ms[id].generation, n) <= room {
      YoungerFalls(ms, done, except, 0, ms[id].generation, n);
    }
  }

  /** Of finitely many modules one is oldest. */
  lemma {:induction false} SomeOldest(ms: Modules, ids: set<nat>) returns (o: nat)
    requires ids != {} && forall id | id in ids :: id in ms
    ensures o in ids && forall id | id in ids :: ms[o].generation <= ms[id].generation
    decreases |ids|
  {
    var first :| first in ids;
    var rest := ids - {first};
    o := first;
    if rest != {} {
      var p := SomeOldest(ms, rest);
      if ms[p].generation < ms[first].generation { o := p; }
    }
    forall id | id in ids ensures ms[o].generation <= ms[id].generation { assert id in rest || id == first; }
  }

  /** What is kept fits. */
  lemma KeptFits(ms: Modules, done: bool, except: int, room: nat, n: nat)
    ensures Younger(Kept(ms, done, except, room, n), done, except, 0, n) <= room
  {
    var kept := Kept(ms, done, except, room, n);
    var ids := set id | id in kept && Candidate(kept, done, except, id);
    if ids == {} {
      forall i | 0 <= i < n ensures Share(kept, done, except, 0, i) <= Share(map[], done, except, 0, i) {
        assert i !in ids;
      }
      YoungerLe(kept, map[], done, except, 0, 0, n);
      NoneYounger(done, except, 0, n);
    } else {
      var o := SomeOldest(kept, ids);
      var g := ms[o].generation;
      forall i | 0 <= i < n ensures Share(kept, done, except, 0, i) <= Share(ms, done, except, g, i) {
        assert i in kept && i != except && Load(kept[i], done) > 0 ==> i in ids;
      }
      YoungerLe(kept, ms, done, except, 0, g, n);
      assert Candidate(ms, done, except, o);
    }
  }

  lemma {:induction false} NoneYounger(done: bool, except: int, g: nat, n: nat)
    ensures Younger(map[], done, except, g, n) == 0
  {
    if n > 0 { NoneYounger(done, except, g, n - 1); }
  }
}
