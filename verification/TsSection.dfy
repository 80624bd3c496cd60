/** Sections in transport-stream packets: the assembler of ts/section.go as functions, and the packetizer of
    ts/demux.go. */
module TsSection {
  import opened Basics
  import Crc

  type Bytes = seq<Byte>

  const STUFFING: Byte := 0xff

  function Words(b: Bytes): Crc.Bytes { seq(|b|, i requires 0 <= i < |b| => b[i] as bv8) }

  function Numbers(b: Crc.Bytes): Bytes { seq(|b|, i requires 0 <= i < |b| => b[i] as int) }

  lemma WordsBack(b: Crc.Bytes)
    ensures Words(Numbers(b)) == b
  {
    forall i | 0 <= i < |b| ensures Words(Numbers(b))[i] == b[i] { Crc.ByteIndex(b[i]); }
  }

  lemma WordsConcat(a: Bytes, b: Bytes)
    ensures Words(a + b) == Words(a) + Words(b)
  {}

  /** The length a section declares, with its first three bytes. */
  function Total(b: Bytes): (n: nat)
    requires |b| >= 3
    ensures 3 <= n <= 4098
  {
    3 + (b[1] as int % 16) * 256 + b[2] as int
  }

  predicate ValidCrc(s: Bytes) { |s| >= 4 && Total(s) <= |s| && Crc.TableCrc(Words(s[..Total(s)])) == 0 }

  /** What the assembler sees of a packet; no payload is an empty one. */
  datatype View = View(pid: nat, error: bool, start: bool, counter: nat, payload: Bytes)

  datatype State = State(buffer: Bytes, last: nat, expecting: bool)

  const FRESH := State([], 0, false)

  /** Sections found, what stays in the buffer, and whether more is expected. */
  datatype Cut = Cut(sections: seq<Bytes>, rest: Bytes, expecting: bool)

  function Prepend(s: Bytes, c: Cut): Cut { if ValidCrc(s) then c.(sections := [s] + c.sections) else c }

  /** A payload that starts with a section. */
  function Consume(payload: Bytes): Cut
    decreases |payload|
  {
    if |payload| < 3 || payload[0] == STUFFING then Cut([], [], false)
    else if |payload| < Total(payload) then Cut([], payload, true)
    else Prepend(payload[..Total(payload)], Consume(payload[Total(payload)..]))
  }

  /** A buffer that has grown. */
  function Complete(buffer: Bytes, expecting: bool): Cut
    decreases |buffer|
  {
    if |buffer| < 3 then Cut([], buffer, expecting && buffer != [])
    else if |buffer| < Total(buffer) then Cut([], buffer, true)
    else
      var rest := buffer[Total(buffer)..];
      Prepend(buffer[..Total(buffer)], if rest == [] then Cut([], [], false) else Complete(rest, expecting))
  }

  predicate Relevant(pid: nat, v: View) { v.pid == pid && !v.error && v.payload != [] }

  /** The continuity check: an expected continuation with the wrong counter is given up. */
  function Continue(st: State, v: View): State {
    if st.expecting && v.counter != (st.last + 1) % 16 then State([], v.counter, false) else st.(last := v.counter)
  }

  function StepStart(st: State, v: View): (State, seq<Bytes>)
    requires v.payload != []
  {
    var pointer, p := v.payload[0], v.payload[1..];
    if pointer > |p| then (State([], v.counter, false), [])
    else
      var before := if st.buffer != [] && pointer > 0 then Complete(st.buffer + p[..pointer], st.expecting).sections
          else [];
      var c := Consume(p[pointer..]);
      (State(c.rest, v.counter, c.expecting), before + c.sections)
  }

  function Step(pid: nat, st: State, v: View): (State, seq<Bytes>) {
    if !Relevant(pid, v) then (st, [])
    else
      var s := Continue(st, v);
      if v.start then StepStart(s, v)
      else if !s.expecting then (s, [])
      else
        var c := Complete(s.buffer + v.payload, true);
        (State(c.rest, v.counter, c.expecting), c.sections)
  }

  function After(pid: nat, st: State, vs: seq<View>): State
    decreases |vs|
  {
    if vs == [] then st else After(pid, Step(pid, st, vs[0]).0, vs[1..])
  }

  function Emitted(pid: nat, st: State, vs: seq<View>): seq<Bytes>
    decreases |vs|
  {
    if vs == [] then [] else Step(pid, st, vs[0]).1 + Emitted(pid, Step(pid, st, vs[0]).0, vs[1..])
  }

  lemma EmittedFirst(pid: nat, st: State, v: View, more: seq<View>)
    ensures Emitted(pid, st, [v] + more) == Step(pid, st, v).1 + Emitted(pid, Step(pid, st, v).0, more)
    ensures After(pid, st, [v] + more) == After(pid, Step(pid, st, v).0, more)
  {}

  lemma {:induction false} EmittedConcat(pid: nat, st: State, a: seq<View>, b: seq<View>)
    ensures Emitted(pid, st, a + b) == Emitted(pid, st, a) + Emitted(pid, After(pid, st, a), b)
    ensures After(pid, st, a + b) == After(pid, After(pid, st, a), b)
    decreases |a|
  {
    if a == [] {
      assert a + b == b;
    } else {
      var st' := Step(pid, st, a[0]).0;
      assert a + b == [a[0]] + (a[1..] + b) && a == [a[0]] + a[1..];
      EmittedFirst(pid, st, a[0], a[1..] + b);
      EmittedFirst(pid, st, a[0], a[1..]);
      EmittedConcat(pid, st', a[1..], b);
      Associative(Step(pid, st, a[0]).1, Emitted(pid, st', a[1..]), Emitted(pid, After(pid, st', a[1..]), b));
    }
  }

  // ------------------------------------------------------------------ packetizing

  function Padding(n: nat): Bytes { seq(n, i => STUFFING) }

  function Padded(b: Bytes, n: nat): Bytes
    requires |b| <= n
  {
    b + Padding(n - |b|)
  }

  function Take(b: Bytes, n: nat): Bytes { if |b| <= n then b else b[..n] }

  function Skip(b: Bytes, n: nat): Bytes { if |b| <= n then [] else b[n..] }

  function FirstView(pid: nat, s: Bytes, counter: nat): View {
    View(pid, false, true, counter % 16, [0] + Padded(Take(s, 183), 183))
  }

  function RestView(pid: nat, rest: Bytes, counter: nat): View {
    View(pid, false, false, counter % 16, Padded(Take(rest, 184), 184))
  }

  function RestViews(pid: nat, rest: Bytes, counter: nat): seq<View>
    decreases |rest|
  {
    if rest == [] then []
    else [RestView(pid, rest, counter)] + RestViews(pid, Skip(rest, 184), (counter + 1) % 16)
  }

  /** The packets of one section: the first with a zero pointer, all filled up with stuffing. */
  function SectionViews(pid: nat, s: Bytes, counter: nat): seq<View> {
    [FirstView(pid, s, counter)] + RestViews(pid, Skip(s, 183), (counter + 1) % 16)
  }

  /** The counter after a section's packets. */
  function NextCounter(pid: nat, s: Bytes, counter: nat): nat { (counter + |SectionViews(pid, s, counter)|) % 16 }

  function ListViews(pid: nat, sections: seq<Bytes>, counter: nat): seq<View> {
    if sections == [] then []
    else SectionViews(pid, sections[0], counter) + ListViews(pid, sections[1..], NextCounter(pid, sections[0], counter))
  }

  /** What a broadcaster may send as a section. */
  predicate Sendable(s: Bytes) { |s| >= 4 && s[0] != STUFFING && |s| == Total(s) && ValidCrc(s) }

  // ------------------------------------------------------------------ round trip

  lemma WholeSection(s: Bytes, n: nat)
    requires Sendable(s) && n <= 184
    ensures Complete(s + Padding(n), true).sections == [s]
    ensures Consume(s + Padding(n)) == Cut([s], [], false)
  {}

  lemma PartOfSection(s: Bytes, part: Bytes)
    requires Sendable(s) && 3 <= |part| < |s| && s[..|part|] == part
    ensures Complete(part, true) == Cut([], part, true) && Consume(part) == Cut([], part, true)
  {}

  lemma StepContinues(pid: nat, st: State, v: View)
    requires Relevant(pid, v) && !v.start && st.expecting && v.counter == (st.last + 1) % 16
    ensures var c := Complete(st.buffer + v.payload, true);
            Step(pid, st, v) == (State(c.rest, v.counter, c.expecting), c.sections)
  {}

  lemma StepBegins(pid: nat, st: State, v: View)
    requires Relevant(pid, v) && v.start && v.payload[0] == 0
    ensures var c := Consume(v.payload[1..]);
            Step(pid, st, v) == (State(c.rest, v.counter, c.expecting), c.sections)
  {
    var p := v.payload[1..];
    assert p[0..] == p;
    assert [] + Consume(p).sections == Consume(p).sections;
  }

  lemma JoinedRest(s: Bytes, n: nat)
    requires n < |s|
    ensures s[..n] + Padded(Take(s[n..], 184), 184)
         == if |s| <= n + 184 then s + Padding(184 - (|s| - n)) else s[..n + 184]
  {}

  lemma RestStep(pid: nat, s: Bytes, n: nat, last: nat, counter: nat)
    requires Sendable(s) && 3 <= n < |s| && counter < 16 && counter == (last + 1) % 16
    ensures var r := Step(pid, State(s[..n], last, true), RestView(pid, s[n..], counter));
            if |s| <= n + 184 then r.1 == [s] else r == (State(s[..n + 184], counter, true), [])
  {
    assert counter % 16 == counter;
    StepContinues(pid, State(s[..n], last, true), RestView(pid, s[n..], counter));
    JoinedRest(s, n);
    if |s| <= n + 184 { WholeSection(s, 184 - (|s| - n)); } else { PartOfSection(s, s[..n + 184]); }
  }

  lemma LastRestEmits(pid: nat, s: Bytes, n: nat, last: nat, counter: nat)
    requires Sendable(s) && 3 <= n < |s| <= n + 184 && counter < 16 && counter == (last + 1) % 16
    ensures Emitted(pid, State(s[..n], last, true), [RestView(pid, s[n..], counter)]) == [s]
  {
    var v := RestView(pid, s[n..], counter);
    EmittedFirst(pid, State(s[..n], last, true), v, []);
    assert [v] + [] == [v];
    RestStep(pid, s, n, last, counter);
  }

  lemma RestEmitsLater(pid: nat, s: Bytes, n: nat, last: nat, counter: nat, more: seq<View>)
    requires Sendable(s) && 3 <= n && n + 184 < |s| && counter < 16 && counter == (last + 1) % 16
    requires Emitted(pid, State(s[..n + 184], counter, true), more) == [s]
    ensures Emitted(pid, State(s[..n], last, true), [RestView(pid, s[n..], counter)] + more) == [s]
  {
    EmittedFirst(pid, State(s[..n], last, true), RestView(pid, s[n..], counter), more);
    RestStep(pid, s, n, last, counter);
  }

  lemma RestViewsLater(pid: nat, s: Bytes, n: nat, counter: nat)
    requires n < |s|
    ensures RestViews(pid, s[n..], counter)
         == [RestView(pid, s[n..], counter)] + if n + 184 < |s| then RestViews(pid, s[n + 184..], (counter + 1) % 16)
             else []
  {
    assert Skip(s[n..], 184) == if n + 184 < |s| then s[n + 184..] else [];
  }

  /** The rest of a section brings it out. */
  lemma {:induction false} RestEmits(pid: nat, s: Bytes, n: nat, last: nat, counter: nat)
    requires Sendable(s) && 3 <= n < |s| && counter < 16 && counter == (last + 1) % 16
    ensures Emitted(pid, State(s[..n], last, true), RestViews(pid, s[n..], counter)) == [s]
    decreases |s| - n
  {
    RestViewsLater(pid, s, n, counter);
    if n + 184 < |s| {
      RestEmits(pid, s, n + 184, counter, (counter + 1) % 16);
      RestEmitsLater(pid, s, n, last, counter, RestViews(pid, s[n + 184..], (counter + 1) % 16));
    } else {
      LastRestEmits(pid, s, n, last, counter);
    }
  }

  lemma FirstStep(pid: nat, st: State, s: Bytes, counter: nat)
    requires Sendable(s)
    ensures Step(pid, st, FirstView(pid, s, counter))
         == if |s| <= 183 then (State([], counter % 16, false), [s]) else (State(s[..183], counter % 16, true), [])
  {
    var v := FirstView(pid, s, counter);
    StepBegins(pid, st, v);
    assert v.payload[1..] == Padded(Take(s, 183), 183);
    if |s| <= 183 {
      WholeSection(s, 183 - |s|);
    } else {
      assert Padding(0) == [];
      assert Padded(Take(s, 183), 183) == s[..183];
      PartOfSection(s, s[..183]);
    }
  }

  lemma ModNext(a: nat, b: nat)
    requires a % 16 == b % 16
    ensures (a + 1) % 16 == (b + 1) % 16
  {}

  /** From any state, a section's packets bring out exactly that section. */
  lemma SectionEmits(pid: nat, st: State, s: Bytes, counter: nat)
    requires Sendable(s)
    ensures Emitted(pid, st, SectionViews(pid, s, counter)) == [s]
  {
    var last, next := counter % 16, (counter + 1) % 16;
    assert next == (last + 1) % 16 by { ModNext(last, counter); }
    var more := RestViews(pid, Skip(s, 183), next);
    EmittedFirst(pid, st, FirstView(pid, s, counter), more);
    FirstStep(pid, st, s, counter);
    if |s| <= 183 {
      assert more == [];
    } else {
      RestEmits(pid, s, 183, last, next);
    }
  }

  /** Packetizing any list of sections with one counter and assembling it again gives the list. */
  lemma {:induction false} ListRoundTrip(pid: nat, st: State, sections: seq<Bytes>, counter: nat)
    requires forall i | 0 <= i < |sections| :: Sendable(sections[i])
    ensures Emitted(pid, st, ListViews(pid, sections, counter)) == sections
    decreases |sections|
  {
    if sections != [] {
      var s := sections[0];
      assert Sendable(s);
      var vs, next := SectionViews(pid, s, counter), NextCounter(pid, s, counter);
      SectionEmits(pid, st, s, counter);
      ListRoundTrip(pid, After(pid, st, vs), sections[1..], next);
      EmittedConcat(pid, st, vs, ListViews(pid, sections[1..], next));
      assert sections == [s] + sections[1..];
    }
  }
}
