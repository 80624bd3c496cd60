/** Lost packets: which gaps the section assembler of ts/section.go notices, and what the others do. */
module TsGap {
  import opened Basics
  import opened TsSection
  import Crc

  // ------------------------------------------------------------------ what a state knows

  /** The buffer is empty exactly when nothing is expected. */
  predicate Settled(st: State) { st.expecting <==> st.buffer != [] }

  lemma {:induction false} CompleteSettles(buffer: Bytes)
    ensures var c := Complete(buffer, true); c.expecting <==> c.rest != []
    decreases |buffer|
  {
    if |buffer| >= 3 && |buffer| >= Total(buffer) && buffer[Total(buffer)..] != [] {
      CompleteSettles(buffer[Total(buffer)..]);
    }
  }

  lemma {:induction false} ConsumeSettles(payload: Bytes)
    ensures var c := Consume(payload); c.expecting <==> c.rest != []
    decreases |payload|
  {
    if |payload| >= 3 && payload[0] != STUFFING && |payload| >= Total(payload) {
      ConsumeSettles(payload[Total(payload)..]);
    }
  }

  lemma StepSettles(pid: nat, st: State, v: View)
    requires Settled(st)
    ensures Settled(Step(pid, st, v).0)
  {
    if Relevant(pid, v) {
      var s := Continue(st, v);
      CompleteSettles(s.buffer + v.payload);
      if v.start && v.payload[0] <= |v.payload[1..]| { ConsumeSettles(v.payload[1..][v.payload[0]..]); }
    }
  }

  lemma {:induction false} RunSettles(pid: nat, st: State, vs: seq<View>)
    requires Settled(st)
    ensures Settled(After(pid, st, vs))
    decreases |vs|
  {
    if vs != [] {
      StepSettles(pid, st, vs[0]);
      RunSettles(pid, Step(pid, st, vs[0]).0, vs[1..]);
    }
  }

  /** The counter of the last relevant view. */
  function LastCounter(pid: nat, vs: seq<View>, before: nat): nat
    decreases |vs|
  {
    if vs == [] then before else LastCounter(pid, vs[1..], if Relevant(pid, vs[0]) then vs[0].counter else before)
  }

  /** The state remembers the counter of the last packet it looked at, whatever else that packet did. */
  lemma {:induction false} RemembersCounter(pid: nat, st: State, vs: seq<View>)
    ensures After(pid, st, vs).last == LastCounter(pid, vs, st.last)
    decreases |vs|
  {
    if vs != [] { RemembersCounter(pid, Step(pid, st, vs[0]).0, vs[1..]); }
  }

  // ----------------------------------------------------------------------------- gaps

  /** Packets of one PID, none of them damaged or empty, with consecutive counters. */
  ghost predicate Continuous(pid: nat, vs: seq<View>) {
    && (forall i | 0 <= i < |vs| :: Relevant(pid, vs[i]))
    && forall i | 0 <= i < |vs| :: vs[i].counter == CounterAt(vs[0].counter, i)
  }

  function CounterAt(first: nat, i: nat): nat { (first + i) % 16 }

  lemma {:induction false} LastOfContinuous(pid: nat, vs: seq<View>, before: nat)
    requires vs != [] && forall i | 0 <= i < |vs| :: Relevant(pid, vs[i])
    ensures LastCounter(pid, vs, before) == vs[|vs| - 1].counter
    decreases |vs|
  {
    assert Relevant(pid, vs[0]);
    if |vs| > 1 { LastOfContinuous(pid, vs[1..], vs[0].counter); }
  }

  /** The next packet does not carry on from this state. */
  predicate Broken(pid: nat, st: State, v: View) {
    Relevant(pid, v) && (st.expecting ==> v.counter != (st.last + 1) % 16)
  }

  /** What follows a break is assembled as if nothing had come before. */
  lemma BreakSeparates(pid: nat, before: seq<View>, after: seq<View>)
    requires after != [] && Broken(pid, After(pid, FRESH, before), after[0])
    ensures Emitted(pid, FRESH, before + after) == Emitted(pid, FRESH, before) + Emitted(pid, FRESH, after)
  {
    var st, v := After(pid, FRESH, before), after[0];
    RunSettles(pid, FRESH, before);
    assert Continue(st, v) == Continue(FRESH, v);
    assert Step(pid, st, v) == Step(pid, FRESH, v);
    assert after == [v] + after[1..];
    EmittedFirst(pid, st, v, after[1..]);
    EmittedFirst(pid, FRESH, v, after[1..]);
    EmittedConcat(pid, FRESH, before, after);
  }

  lemma CounterShows(first: nat, i: nat, lost: nat)
    requires lost % 16 != 0
    ensures CounterAt(first, i + 1 + lost) != (CounterAt(first, i) + 1) % 16
  {
    var a := first + i + 1;
    assert (CounterAt(first, i) + 1) % 16 == a % 16;
    assert (a + lost) % 16 != a % 16;
  }

  /** What is left of a stream when `lost` packets from index `i` on are missing. */
  function Without(vs: seq<View>, i: nat, lost: nat): seq<View>
    requires i + lost <= |vs|
  {
    vs[..i] + vs[i + lost..]
  }

  /** The two sides of the gap are assembled each on its own. */
  ghost predicate Separate(pid: nat, vs: seq<View>, i: nat, lost: nat)
    requires i + lost <= |vs|
  {
    Emitted(pid, FRESH, Without(vs, i, lost)) == Emitted(pid, FRESH, vs[..i]) + Emitted(pid, FRESH, vs[i + lost..])
  }

  /** However a stream goes on, losing a number of packets that is no multiple of sixteen never makes a section
      of bytes from both sides of the gap. */
  lemma GapSeparates(pid: nat, vs: seq<View>, i: nat, lost: nat)
    requires Continuous(pid, vs) && i + lost <= |vs| && lost % 16 != 0
    ensures Separate(pid, vs, i, lost)
  {
    var before, after := vs[..i], vs[i + lost..];
    if i == 0 {
      assert before + after == after;
    } else if after == [] {
      assert before + after == before;
    } else {
      RemembersCounter(pid, FRESH, before);
      LastOfContinuous(pid, before, 0);
      assert before[i - 1] == vs[i - 1] && after[0] == vs[i + lost];
      CounterShows(vs[0].counter, i - 1, lost);
      BreakSeparates(pid, before, after);
    }
  }

  // ------------------------------------------------------------- sections that splice

  function Zeros(n: nat): Bytes { seq(n, i => 0) }

  /** Bytes followed by the CRC of the state they lead to. */
  function Closed(start: bv32, b: Bytes): Bytes { b + Numbers(Crc.Be32(Crc.Fold(Crc.TableStep, start, Words(b)))) }

  lemma ClosedClears(start: bv32, b: Bytes)
    ensures Crc.Fold(Crc.TableStep, start, Words(Closed(start, b))) == 0 && |Closed(start, b)| == |b| + 4
  {
    var crc := Crc.Be32(Crc.Fold(Crc.TableStep, start, Words(b)));
    WordsConcat(b, Numbers(crc));
    WordsBack(crc);
    Crc.AppendedClears(start, Words(b));
  }

  /** The first 183 bytes of a section of 200, after which the CRC state is clear. */
  function Head(x: Byte): Bytes { Closed(0xffff_ffff, [0, 0, 197, x] + Zeros(175)) }

  /** Two ways to go on from a clear state to a clear state. */
  function TailA(): Bytes { Zeros(17) }

  function TailB(): Bytes { Closed(0, [1] + Zeros(12)) }

  lemma HeadIs(x: Byte)
    ensures var h := Head(x); |h| == 183 && h[0] == 0 && h[1] == 0 && h[2] == 197 && h[3] == x
    ensures Crc.TableCrc(Words(Head(x))) == 0
  {
    ClosedClears(0xffff_ffff, [0, 0, 197, x] + Zeros(175));
  }

  lemma TailsAre()
    ensures |TailA()| == 17 && |TailB()| == 17 && TailA()[0] == 0 && TailB()[0] == 1
    ensures Crc.Fold(Crc.TableStep, 0, Words(TailA())) == 0 && Crc.Fold(Crc.TableStep, 0, Words(TailB())) == 0
  {
    ClosedClears(0, [1] + Zeros(12));
    Crc.ZerosStayClear(Words(TailA()));
  }

  /** Any head goes with any tail. */
  lemma JoinedIsSendable(x: Byte, tail: Bytes)
    requires |tail| == 17 && Crc.Fold(Crc.TableStep, 0, Words(tail)) == 0
    ensures var s := Head(x) + tail; Sendable(s) && |s| == 200 && s[..183] == Head(x) && s[183..] == tail
  {
    var s := Head(x) + tail;
    HeadIs(x);
    WordsConcat(Head(x), tail);
    Crc.FoldConcat(Crc.TableStep, 0xffff_ffff, Words(Head(x)), Words(tail));
    assert s[1] == 0 && s[2] == 197 && Total(s) == 200;
    assert s[..200] == s;
  }

  // ---------------------------------------------------------------- gaps that splice

  lemma TwoViews(pid: nat, s: Bytes, counter: nat)
    requires |s| == 200
    ensures SectionViews(pid, s, counter) == [FirstView(pid, s, counter), RestView(pid, s[183..], counter + 1)]
  {
    var next := (counter + 1) % 16;
    assert next % 16 == next;
    assert RestViews(pid, s[183..], next) == [RestView(pid, s[183..], next)] + RestViews(pid, [], (next + 1) % 16);
  }

  /** A packet that starts no section. */
  function Filler(pid: nat, counter: nat): View { FirstView(pid, [], counter) }

  function Fillers(pid: nat, counter: nat, n: nat): seq<View> {
    seq(n, i requires 0 <= i < n => Filler(pid, counter + i))
  }

  lemma {:induction false} FillersAreQuiet(pid: nat, st: State, counter: nat, n: nat)
    ensures Emitted(pid, st, Fillers(pid, counter, n)) == []
    decreases n
  {
    if n > 0 {
      var v := Filler(pid, counter);
      assert Fillers(pid, counter, n) == [v] + Fillers(pid, counter + 1, n - 1);
      EmittedFirst(pid, st, v, Fillers(pid, counter + 1, n - 1));
      StepBegins(pid, st, v);
      assert v.payload[1..] == Padding(183);
      FillersAreQuiet(pid, Step(pid, st, v).0, counter + 1, n - 1);
    }
  }

  /** Two sections with fillers between them, sixteen times `m` packets from the first packet of one to the first of the
      other. */
  function Apart(pid: nat, s: Bytes, t: Bytes, m: nat): seq<View>
    requires m > 0 && |s| == 200 && |t| == 200
  {
    [FirstView(pid, s, 0), RestView(pid, s[183..], 1)] + Fillers(pid, 2, 16 * m - 2)
    + [FirstView(pid, t, 16 * m), RestView(pid, t[183..], 16 * m + 1)]
  }

  lemma ApartIsContinuous(pid: nat, s: Bytes, t: Bytes, m: nat)
    requires m > 0 && |s| == 200 && |t| == 200
    ensures var vs := Apart(pid, s, t, m); |vs| == 16 * m + 2 && Continuous(pid, vs)
  {
    var vs := Apart(pid, s, t, m);
    forall i | 0 <= i < |vs| ensures Relevant(pid, vs[i]) && vs[i].counter == CounterAt(vs[0].counter, i) {
      if 2 <= i < 16 * m { assert vs[i] == Filler(pid, i); }
    }
  }

  lemma SectionAndFillers(pid: nat, s: Bytes, n: nat)
    requires Sendable(s)
    ensures Emitted(pid, FRESH, SectionViews(pid, s, 0) + Fillers(pid, 2, n)) == [s]
  {
    var a := SectionViews(pid, s, 0);
    SectionEmits(pid, FRESH, s, 0);
    FillersAreQuiet(pid, After(pid, FRESH, a), 2, n);
    EmittedConcat(pid, FRESH, a, Fillers(pid, 2, n));
  }

  lemma ApartIs(pid: nat, s: Bytes, t: Bytes, m: nat)
    requires m > 0 && |s| == 200 && |t| == 200
    ensures Apart(pid, s, t, m) == (SectionViews(pid, s, 0) + Fillers(pid, 2, 16 * m - 2)) + SectionViews(pid, t,
            16 * m)
  {
    TwoViews(pid, s, 0);
    TwoViews(pid, t, 16 * m);
  }

  /** Complete, the stream gives both sections. */
  lemma ApartEmits(pid: nat, s: Bytes, t: Bytes, m: nat)
    requires m > 0 && Sendable(s) && Sendable(t) && |s| == 200 && |t| == 200
    ensures Emitted(pid, FRESH, Apart(pid, s, t, m)) == [s, t]
  {
    var first := SectionViews(pid, s, 0) + Fillers(pid, 2, 16 * m - 2);
    ApartIs(pid, s, t, m);
    SectionAndFillers(pid, s, 16 * m - 2);
    SectionEmits(pid, After(pid, FRESH, first), t, 16 * m);
    EmittedConcat(pid, FRESH, first, SectionViews(pid, t, 16 * m));
  }

  /** With the packets in between lost, the head of one and the tail of the other make a third. */
  lemma GapMakesSplice(pid: nat, s: Bytes, t: Bytes, u: Bytes, m: nat)
    requires m > 0 && |s| == 200 && |t| == 200 && |u| == 200 && Sendable(u) && u[..183] == s[..183]
             && u[183..] == t[183..]
    ensures var vs := Apart(pid, s, t, m);
            && 1 + 16 * m <= |vs| && Emitted(pid, FRESH, Without(vs, 1, 16 * m)) == [u]
            && Emitted(pid, FRESH, vs[..1]) == [] && Emitted(pid, FRESH, vs[1 + 16 * m..]) == []
  {
    var vs, k := Apart(pid, s, t, m), 16 * m;
    var v, w := FirstView(pid, s, 0), RestView(pid, t[183..], k + 1);
    assert vs[..1] == [v] && vs[1 + k..] == [w];
    assert Take(u, 183) == Take(s, 183);
    assert (k + 1) % 16 == 1;
    TwoViews(pid, u, 0);
    assert Without(vs, 1, k) == SectionViews(pid, u, 0);
    SectionEmits(pid, FRESH, u, 0);
    FirstStep(pid, FRESH, u, 0);
    assert [v] == [v] + [] && [w] == [w] + [];
    EmittedFirst(pid, FRESH, v, []);
    EmittedFirst(pid, FRESH, w, []);
  }

  /** Two sections, and a third of the head of one and the tail of the other. */
  ghost predicate Spliceable(s: Bytes, t: Bytes, u: Bytes) {
    && Sendable(s) && Sendable(t) && Sendable(u) && |s| == 200 && |t| == 200 && |u| == 200
    && u[..183] == s[..183] && u[183..] == t[183..] && u != s && u != t
  }

  lemma SpliceableSections() returns (s: Bytes, t: Bytes, u: Bytes)
    ensures Spliceable(s, t, u)
  {
    s, t, u := Head(1) + TailA(), Head(2) + TailB(), Head(1) + TailB();
    TailsAre();
    HeadIs(1);
    HeadIs(2);
    JoinedIsSendable(1, TailA());
    JoinedIsSendable(2, TailB());
    JoinedIsSendable(1, TailB());
    assert s[183..][0] != u[183..][0] && t[..183][3] != u[..183][3];
  }

  /** Losing `lost` packets of this stream makes one section out of parts of two. */
  ghost predicate Splices(pid: nat, vs: seq<View>, lost: nat, s: Bytes, t: Bytes, u: Bytes) {
    && Continuous(pid, vs) && 1 + lost <= |vs| && Spliceable(s, t, u)
    && Emitted(pid, FRESH, vs) == [s, t] && Emitted(pid, FRESH, Without(vs, 1, lost)) == [u]
         && !Separate(pid, vs, 1, lost)
  }

  /** For every positive multiple of sixteen there is a stream in which losing that many packets makes the
      assembler emit a section of bytes from two different ones. */
  lemma UnseenGapSplices(pid: nat, m: nat)
    requires m > 0
    ensures exists vs, s, t, u :: Splices(pid, vs, 16 * m, s, t, u)
  {
    var s, t, u := SpliceableSections();
    ApartIsContinuous(pid, s, t, m);
    ApartEmits(pid, s, t, m);
    GapMakesSplice(pid, s, t, u, m);
    assert Splices(pid, Apart(pid, s, t, m), 16 * m, s, t, u);
  }

  /** Every stream survives every gap of `lost` packets without a mixed section. */
  ghost predicate NeverMixes(pid: nat, lost: nat) {
    forall vs, i: nat | Continuous(pid, vs) && i + lost <= |vs| :: Separate(pid, vs, i, lost)
  }

  /** So the number of lost packets decides it. */
  lemma GapsSeparateExactlyUnlessMultiple(pid: nat, lost: nat)
    requires lost > 0
    ensures NeverMixes(pid, lost) <==> lost % 16 != 0
  {
    if lost % 16 != 0 {
      forall vs, i: nat | Continuous(pid, vs) && i + lost <= |vs| ensures Separate(pid, vs, i, lost) {
        GapSeparates(pid, vs, i, lost);
      }
    } else {
      var m := lost / 16;
      assert lost == 16 * m;
      UnseenGapSplices(pid, m);
      var vs, s, t, u :| Splices(pid, vs, lost, s, t, u);
    }
  }
}
