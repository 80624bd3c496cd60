/**
 Shutting down walks the history and aborts the jobs that wait for a retry, while trimming
 shifts the very elements it walks over.  This module says exactly when it misses one.
 */
module JobShutdown {
  import opened JobModel
  import opened JobSched

  predicate Waits(recs: Records, id: nat) { id in recs && recs[id].status == Standby }

  function AbortedRecord(r: Record): Record { r.(status := Finished, aborted := true) }

  /** The walked elements once trimming `h`, their prefix, has moved the later ones down. */
  function Shifted(b: seq<nat>, h: seq<nat>, recs: Records, max: nat): (r: seq<nat>)
    requires |h| <= |b|
    ensures |r| == |b|
    decreases |h|
  {
    if |h| <= max || FirstDead(h, recs) >= |h| then b
    else
      var h' := Without(h, FirstDead(h, recs));
      Shifted(h' + b[|h'|..], h', recs, max)
  }

  /** The records after walking `b` from position `i`. */
  ghost function Swept(b: seq<nat>, i: nat, h: seq<nat>, recs: Records, max: nat): Records
    requires |h| <= |b|
    decreases |b| - i
  {
    if i >= |b| then recs
    else if !Waits(recs, b[i]) then Swept(b, i + 1, h, recs, max)
    else
      var recs' := recs[b[i] := AbortedRecord(recs[b[i]])];
      TrimKeeps(h, recs', max, 0);
      Swept(Shifted(b, h, recs', max), i + 1, Trim(h, recs', max), recs', max)
  }

  // ---------------------------------------------------------------- one removal

  lemma {:induction false} OnlyDead(h: seq<nat>, recs: Records, i: nat)
    requires i < |h| && !Unfinished(recs, h[i]) && forall j | 0 <= j < i :: Unfinished(recs, h[j])
    ensures FirstDead(h, recs) == i
  {
    if i > 0 { OnlyDead(h[1..], recs, i - 1); }
  }

  lemma {:induction false} NoneDead(h: seq<nat>, recs: Records)
    requires forall j | 0 <= j < |h| :: Unfinished(recs, h[j])
    ensures FirstDead(h, recs) == |h|
  {
    if h != [] { NoneDead(h[1..], recs); }
  }

  /** Aborting one job of a history over its limit removes exactly that job. */
  lemma {:induction false} TrimOne(b: seq<nat>, h: seq<nat>, recs: Records, recs': Records, max: nat, i: nat)
    requires NoRepeats(h) && |h| > max && |h| <= |b| && i < |h| && (forall id | id in h :: Unfinished(recs, id))
    requires h[i] in recs && recs' == recs[h[i] := AbortedRecord(recs[h[i]])]
    ensures Trim(h, recs', max) == Without(h, i) && NoRepeats(Without(h, i))
    ensures forall id | id in Without(h, i) :: Unfinished(recs', id)
    ensures Shifted(b, h, recs', max) == Without(h, i) + b[|h| - 1..]
  {
    var h' := Without(h, i);
    forall j | 0 <= j < i ensures Unfinished(recs', h[j]) { assert h[j] in h; }
    OnlyDead(h, recs', i);
    WithoutQueue(h, i, h[i]);
    forall j | 0 <= j < |h'| ensures Unfinished(recs', h'[j]) {
      assert h'[j] in h;
      WithoutQueue(h, i, h'[j]);
      assert h'[j] in h';
    }
    NoneDead(h', recs');
    assert Trim(h', recs', max) == h';
  }

  // ------------------------------------------------------------------ the walk

  /** A history within its limit loses nothing, so every waiting job ahead is aborted. */
  lemma {:induction false} SweptWithinLimit(b: seq<nat>, i: nat, h: seq<nat>, recs: Records, max: nat, id: nat)
    requires |h| <= |b| && |h| <= max && i <= |b|
    ensures Waits(Swept(b, i, h, recs, max), id) <==> Waits(recs, id) && id !in b[i..]
    decreases |b| - i
  {
    if i < |b| {
      assert b[i..] == [b[i]] + b[i + 1..];
      if Waits(recs, b[i]) {
        SweptWithinLimit(b, i + 1, h, recs[b[i] := AbortedRecord(recs[b[i]])], max, id);
      } else {
        SweptWithinLimit(b, i + 1, h, recs, max, id);
      }
    }
  }

  lemma {:induction false} NobodyAhead(b: seq<nat>, i: nat, h: seq<nat>, recs: Records, max: nat)
    requires |h| <= |b| && forall j | i <= j < |b| :: !Waits(recs, b[j])
    ensures Swept(b, i, h, recs, max) == recs
    decreases |b| - i
  {
    if i < |b| { NobodyAhead(b, i + 1, h, recs, max); }
  }

  /** Beyond the history the walked elements repeat its last job. */
  ghost predicate Backed(b: seq<nat>, h: seq<nat>) {
    0 < |h| <= |b| && b[..|h|] == h && forall j | |h| <= j < |b| :: b[j] == h[|h| - 1]
  }

  /** The jobs the walk steps over when `excess` removals are still to come: the one after each
      removed job, unless it is the last. */
  ghost function Missed(rest: seq<nat>, recs: Records, excess: nat): set<nat> {
    if |rest| <= 2 then {}
    else if !Waits(recs, rest[0]) then Missed(rest[1..], recs, excess)
    else if excess == 0 then {}
    else if Waits(recs, rest[1]) then Missed(rest[2..], recs, excess - 1) + {rest[1]}
    else Missed(rest[2..], recs, excess - 1)
  }

  lemma {:induction false} MissedSame(rest: seq<nat>, recs: Records, recs': Records, excess: nat)
    requires forall j | 0 <= j < |rest| :: Waits(recs, rest[j]) == Waits(recs', rest[j])
    ensures Missed(rest, recs, excess) == Missed(rest, recs', excess)
  {
    if |rest| > 2 {
      if !Waits(recs, rest[0]) { MissedSame(rest[1..], recs, recs', excess); }
      else if excess > 0 { MissedSame(rest[2..], recs, recs', excess - 1); }
    }
  }

  lemma {:induction false} MissedWithin(rest: seq<nat>, recs: Records, excess: nat, id: nat)
    requires id in Missed(rest, recs, excess)
    ensures id in rest && Waits(recs, id)
  {
    if !Waits(recs, rest[0]) { MissedWithin(rest[1..], recs, excess, id); }
    else if id in Missed(rest[2..], recs, excess - 1) { MissedWithin(rest[2..], recs, excess - 1, id); }
  }

  /** Removing a job moves the rest down; the tail still repeats the last one. */
  lemma TailStays(b: seq<nat>, h: seq<nat>, i: nat)
    requires Backed(b, h) && i < |h|
    ensures var b' := Without(h, i) + b[|h| - 1..];
            |b'| == |b| && (forall j | |h| - 1 <= j < |b| :: b'[j] == h[|h| - 1])
                && (i + 1 < |h| ==> Backed(b', Without(h, i)))
  {}

  lemma LastTwo(b: seq<nat>, i: nat, h: seq<nat>, recs: Records, max: nat, id: nat)
    requires Backed(b, h) && HistoryOk(h, recs, max) && |h| > max && i < |h| <= i + 2
    ensures Waits(Swept(b, i, h, recs, max), id) <==> Waits(recs, id) && id !in h[i..]
    decreases |h| - i
  {
    var x := h[i];
    assert b[i] == b[..|h|][i] == x && x in h;
    var recs' := recs[x := AbortedRecord(recs[x])];
    if !Waits(recs, x) {
      if i + 1 == |h| { NobodyAhead(b, i, h, recs, max); } else { LastTwo(b, i + 1, h, recs, max, id); }
    } else {
      TrimOne(b, h, recs, recs', max, i);
      TailStays(b, h, i);
      var h', b' := Without(h, i), Without(h, i) + b[|h| - 1..];
      if i + 1 == |h| {
        NobodyAhead(b', i + 1, h', recs', max);
      } else {
        LastRemains(b', i + 1, h', recs', max, h[i + 1], id);
      }
    }
  }

  /** Only one job is left ahead, several times over. */
  lemma LastRemains(b: seq<nat>, i: nat, h: seq<nat>, recs: Records, max: nat, y: nat, id: nat)
    requires |h| <= |b| && |h| <= i < |b| && forall j | i <= j < |b| :: b[j] == y
    ensures Waits(Swept(b, i, h, recs, max), id) <==> Waits(recs, id) && id != y
  {
    if Waits(recs, y) {
      var recs' := recs[y := AbortedRecord(recs[y])];
      TrimKeeps(h, recs', max, 0);
      ShiftedTail(b, h, recs', max);
      NobodyAhead(Shifted(b, h, recs', max), i + 1, Trim(h, recs', max), recs', max);
    } else {
      NobodyAhead(b, i, h, recs, max);
    }
  }

  lemma {:induction false} ShiftedTail(b: seq<nat>, h: seq<nat>, recs: Records, max: nat)
    requires |h| <= |b|
    ensures forall j | |h| <= j < |b| :: Shifted(b, h, recs, max)[j] == b[j]
    decreases |h|
  {
    if |h| > max && FirstDead(h, recs) < |h| {
      var h' := Without(h, FirstDead(h, recs));
      ShiftedTail(h' + b[|h'|..], h', recs, max);
    }
  }

  /** Walking a history over its limit aborts every waiting job but the missed ones. */
  lemma {:induction false} SweptOver(b: seq<nat>, i: nat, h: seq<nat>, recs: Records, max: nat, id: nat)
    requires Backed(b, h) && HistoryOk(h, recs, max) && |h| > max && i < |h|
    ensures Waits(Swept(b, i, h, recs, max), id) <==>
            Waits(recs, id) && (id !in h[i..] || id in Missed(h[i..], recs, |h| - max))
    decreases |h| - i
  {
    if |h| <= i + 2 {
      LastTwo(b, i, h, recs, max, id);
    } else {
      assert b[i] == b[..|h|][i] == h[i] && h[i] in h;
      assert h[i..] == [h[i]] + h[i + 1..] && h[i..][1..] == h[i + 1..];
      if !Waits(recs, h[i]) {
        SweptOver(b, i + 1, h, recs, max, id);
      } else {
        SweptRemoval(b, i, h, recs, max, id);
      }
    }
  }

  lemma {:induction false} SweptRemoval(b: seq<nat>, i: nat, h: seq<nat>, recs: Records, max: nat, id: nat)
    requires Backed(b, h) && HistoryOk(h, recs, max) && |h| > max && i + 2 < |h| && Waits(recs, h[i])
    ensures Waits(Swept(b, i, h, recs, max), id) <==>
            Waits(recs, id) && (id !in h[i..] || id in Missed(h[i..], recs, |h| - max))
    decreases |h| - i, 0
  {
    var x := h[i];
    assert b[i] == b[..|h|][i] == x && x in h;
    var recs' := recs[x := AbortedRecord(recs[x])];
    var h', b' := Without(h, i), Without(h, i) + b[|h| - 1..];
    var rest := h[i + 2..];
    assert h'[i + 1..] == rest;
    TailStays(b, h, i);
    RemovalStep(b, i, h, recs, max, h', b', recs');
    assert Waits(Swept(b', i + 1, h', recs', max), id) <==>
           Waits(recs', id) && (id !in rest || id in Missed(rest, recs', |h'| - max)) by {
      if |h'| > max {
        SweptOver(b', i + 1, h', recs', max, id);
      } else {
        SweptWithinLimit(b', i + 1, h', recs', max, id);
        NoneMissed(rest, recs');
        SameAhead(b', h', i + 1, id);
      }
    }
    AfterRemoval(h[i..], recs, recs', |h| - max, id);
    assert h[i..][2..] == rest;
  }

  lemma RemovalStep(b: seq<nat>, i: nat, h: seq<nat>, recs: Records, max: nat, h': seq<nat>, b': seq<nat>,
                    recs': Records)
    requires Backed(b, h) && HistoryOk(h, recs, max) && |h| > max && i < |h| && Waits(recs, h[i])
    requires h' == Without(h, i) && b' == h' + b[|h| - 1..] && recs' == recs[h[i] := AbortedRecord(recs[h[i]])]
    ensures Swept(b, i, h, recs, max) == Swept(b', i + 1, h', recs', max) && HistoryOk(h', recs', max)
  {
    assert b[i] == b[..|h|][i];
    TrimOne(b, h, recs, recs', max, i);
  }

  lemma SameAhead(b: seq<nat>, h: seq<nat>, i: nat, id: nat)
    requires Backed(b, h) && i < |h|
    ensures id in b[i..] <==> id in h[i..]
  {}

  lemma {:induction false} NoneMissed(rest: seq<nat>, recs: Records)
    ensures Missed(rest, recs, 0) == {}
  {
    if |rest| > 2 && !Waits(recs, rest[0]) { NoneMissed(rest[1..], recs); }
  }

  lemma AfterRemoval(rest: seq<nat>, recs: Records, recs': Records, excess: nat, id: nat)
    requires NoRepeats(rest) && |rest| > 2 && excess > 0 && Waits(recs, rest[0])
    requires recs' == recs[rest[0] := AbortedRecord(recs[rest[0]])]
    ensures Waits(recs, id) && (id !in rest || id in Missed(rest, recs, excess))
            <==> Waits(recs', id) && (id !in rest[2..] || id in Missed(rest[2..], recs', excess - 1))
  {
    MissedSame(rest[2..], recs, recs', excess - 1);
    if id in Missed(rest[2..], recs, excess - 1) { MissedWithin(rest[2..], recs, excess - 1, id); }
    assert rest == [rest[0], rest[1]] + rest[2..];
    if id in rest[2..] { assert id != rest[0] && id != rest[1]; }
  }

  // ----------------------------------------------------------- when a job is missed

  ghost function Waiting(h: seq<nat>, recs: Records): nat {
    if h == [] then 0 else Waiting(h[..|h| - 1], recs) + (if Waits(recs, h[|h| - 1]) then 1 else 0)
  }

  ghost predicate MissAt(h: seq<nat>, recs: Records, excess: nat, i: nat) {
    i + 2 < |h| && Waits(recs, h[i]) && Waits(recs, h[i + 1]) && Waiting(h[..i], recs) < excess
  }

  /** Two neighbours both wait, neither is last, and fewer waiting jobs precede them than the
      history has jobs too many. */
  ghost predicate Hazard(h: seq<nat>, recs: Records, excess: nat) {
    exists i :: MissAt(h, recs, excess, i)
  }

  lemma {:induction false} WaitingSplit(x: nat, h: seq<nat>, recs: Records)
    ensures Waiting([x] + h, recs) == Waiting(h, recs) + (if Waits(recs, x) then 1 else 0)
  {
    if h == [] {
      assert [x] + h == [x] && [x][..0] == [];
    } else {
      assert ([x] + h)[..|h|] == [x] + h[..|h| - 1];
      WaitingSplit(x, h[..|h| - 1], recs);
    }
  }

  lemma MissAtNext(h: seq<nat>, recs: Records, excess: nat, i: nat)
    requires i < |h|
    ensures var e := if Waits(recs, h[0]) then excess - 1 else excess;
            i > 0 && e >= 0 ==> (MissAt(h, recs, excess, i) <==> MissAt(h[1..], recs, e, i - 1))
  {
    if 0 < i {
      assert h[..i] == [h[0]] + h[1..][..i - 1];
      WaitingSplit(h[0], h[1..][..i - 1], recs);
    }
  }

  lemma HazardTail(h: seq<nat>, recs: Records, excess: nat)
    requires h != [] && !MissAt(h, recs, excess, 0) && (Waits(recs, h[0]) ==> excess > 0)
    ensures var e := if Waits(recs, h[0]) then excess - 1 else excess;
            Hazard(h, recs, excess) <==> Hazard(h[1..], recs, e)
  {
    var e := if Waits(recs, h[0]) then excess - 1 else excess;
    if Hazard(h, recs, excess) {
      var j: nat :| MissAt(h, recs, excess, j);
      MissAtNext(h, recs, excess, j);
      assert MissAt(h[1..], recs, e, j - 1);
    }
    if Hazard(h[1..], recs, e) {
      var j: nat :| MissAt(h[1..], recs, e, j);
      MissAtNext(h, recs, excess, j + 1);
      assert MissAt(h, recs, excess, j + 1);
    }
  }

  lemma {:induction false} MissedExactly(h: seq<nat>, recs: Records, excess: nat)
    ensures Missed(h, recs, excess) != {} <==> Hazard(h, recs, excess)
  {
    if |h| > 2 {
      if !Waits(recs, h[0]) {
        HazardTail(h, recs, excess);
        MissedExactly(h[1..], recs, excess);
      } else if excess > 0 {
        if Waits(recs, h[1]) {
          assert h[1] in Missed(h, recs, excess);
          assert MissAt(h, recs, excess, 0);
        } else {
          HazardTail(h, recs, excess);
          HazardTail(h[1..], recs, excess - 1);
          assert h[1..][1..] == h[2..];
          MissedExactly(h[2..], recs, excess - 1);
        }
      }
    }
  }

  /** Shutdown leaves a job waiting for its retry exactly in a history over its limit in which two
      neighbours wait, neither of them last, with fewer waiting jobs before them than the history
      has jobs too many. */
  lemma ShutdownMisses(h: seq<nat>, recs: Records, max: nat)
    requires HistoryOk(h, recs, max) && forall id :: Waits(recs, id) ==> id in h
    ensures (exists id :: Waits(Swept(h, 0, h, recs, max), id)) <==> |h| > max && Hazard(h, recs, |h| - max)
  {
    assert h[0..] == h;
    if |h| <= max {
      forall id ensures !Waits(Swept(h, 0, h, recs, max), id) { SweptWithinLimit(h, 0, h, recs, max, id); }
    } else {
      MissedExactly(h, recs, |h| - max);
      forall id: nat ensures Waits(Swept(h, 0, h, recs, max), id) <==> id in Missed(h, recs, |h| - max) {
        assert Waits(recs, id) ==> id in h;
        SweptOver(h, 0, h, recs, max, id);
        if id in Missed(h, recs, |h| - max) { MissedWithin(h, recs, |h| - max, id); }
      }
      if Missed(h, recs, |h| - max) != {} {
        var id :| id in Missed(h, recs, |h| - max);
        assert Waits(Swept(h, 0, h, recs, max), id);
        assert exists x :: Waits(Swept(h, 0, h, recs, max), x);
        assert Hazard(h, recs, |h| - max);
      } else {
        assert !Hazard(h, recs, |h| - max);
      }
    }
  }

  /** With nothing queued, what is unfinished and does not run waits for a retry. */
  lemma LeftoversWait(c: Config, s: Sched)
    requires Sound(c, s) && s.queue == []
    ensures (exists id :: Unfinished(s.recs, id) && id !in s.active) <==> exists id :: Waits(s.recs, id)
  {
    forall id ensures Unfinished(s.recs, id) && id !in s.active <==> Waits(s.recs, id) {
      assert Listed(s.history, s.queue, s.recs, s.active, id);
    }
  }
}
