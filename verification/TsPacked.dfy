/**
 Sections laid end to end: a payload in which a section starts says how many bytes of an
 earlier one come first, and one payload can finish a section and start several more.
 */
module TsPacked {
  import opened Basics
  import opened TsSection
  import TsGap

  function Flat(sections: seq<Bytes>): Bytes {
    if sections == [] then [] else sections[0] + Flat(sections[1..])
  }

  function Sum(sizes: seq<nat>): nat { if sizes == [] then 0 else sizes[0] + Sum(sizes[1..]) }

  ghost predicate Sizes(sizes: seq<nat>) { forall i | 0 <= i < |sizes| :: 0 < sizes[i] <= 184 }

  ghost predicate AllSendable(sections: seq<Bytes>) { forall i | 0 <= i < |sections| :: Sendable(sections[i]) }

  /** What the first `n` bytes of some sections leave: the rest of the one they break off in, and those after it. */
  function Left(sections: seq<Bytes>, n: nat): (Bytes, seq<Bytes>) {
    if sections == [] || n == 0 then ([], sections)
    else if n < |sections[0]| then (sections[0][n..], sections[1..])
    else Left(sections[1..], n - |sections[0]|)
  }

  /** What the payload of `n` section bytes leaves of a broken section and the sections after it. */
  function Later(part: Bytes, sections: seq<Bytes>, n: nat): (Bytes, seq<Bytes>) {
    if n < |part| then (part[n..], sections) else Left(sections, n - |part|)
  }

  function PackedView(pid: nat, part: Bytes, sections: seq<Bytes>, n: nat, counter: nat): View
    requires n <= 184
  {
    var start := |part| < n && sections != [];
    View(pid, false, start, counter % 16,
         (if start then [|part|] else []) + Padded(Take(part + Flat(sections), n), n))
  }

  /** The rest of a section and the sections after it, in payloads of these sizes, the last filled up. */
  function Packed(pid: nat, part: Bytes, sections: seq<Bytes>, sizes: seq<nat>, counter: nat): seq<View>
    requires Sizes(sizes)
    decreases |sizes|
  {
    if sizes == [] || part + Flat(sections) == [] then []
    else
      var (part', sections') := Later(part, sections, sizes[0]);
      [PackedView(pid, part, sections, sizes[0], counter)] + Packed(pid, part', sections', sizes[1..], counter + 1)
  }

  /** A payload ends `x` bytes from here. */
  ghost predicate Ends(sizes: seq<nat>, x: int) { sizes != [] && (x == sizes[0] || Ends(sizes[1..], x - sizes[0])) }

  /** The section that starts `x` bytes from here has its first three bytes in one payload. */
  ghost predicate Headed(sizes: seq<nat>, x: int) { !Ends(sizes, x + 1) && !Ends(sizes, x + 2) }

  /** The sections, the first of which starts `x` bytes from here, whose first three bytes are in one payload. */
  ghost function Kept(sections: seq<Bytes>, x: nat, sizes: seq<nat>): seq<Bytes> {
    if sections == [] then []
    else (if Headed(sizes, x) then [sections[0]] else []) + Kept(sections[1..], x + |sections[0]|, sizes)
  }

  // -------------------------------------------------------------------- what is kept

  lemma {:induction false} EndsAhead(sizes: seq<nat>, x: int)
    requires Sizes(sizes) && x <= 0
    ensures !Ends(sizes, x)
    decreases |sizes|
  {
    if sizes != [] { EndsAhead(sizes[1..], x - sizes[0]); }
  }

  lemma {:induction false} KeptShift(sections: seq<Bytes>, x: nat, sizes: seq<nat>)
    requires sizes != [] && sizes[0] <= x
    ensures Kept(sections, x, sizes) == Kept(sections, x - sizes[0], sizes[1..])
    decreases |sections|
  {
    if sections != [] { KeptShift(sections[1..], x + |sections[0]|, sizes); }
  }

  /** What `n` bytes find of sections: those they hold in full, and the beginning of the one they break off in. */
  function Found(sections: seq<Bytes>, n: nat): (seq<Bytes>, Bytes) {
    if sections == [] || n == 0 then ([], [])
    else if n < |sections[0]| then ([], sections[0][..n])
    else var (whole, begun) := Found(sections[1..], n - |sections[0]|); ([sections[0]] + whole, begun)
  }

  /** A beginning too short to tell the section's length is forgotten. */
  function Remembered(begun: Bytes): Bytes { if |begun| < 3 then [] else begun }

  function Current(done: Bytes, part: Bytes): seq<Bytes> { if done == [] then [] else [done + part] }

  lemma HeadedHere(sizes: seq<nat>, x: nat)
    requires Sizes(sizes) && sizes != [] && x < sizes[0]
    ensures Headed(sizes, x) <==> sizes[0] - x >= 3
  {
    EndsAhead(sizes[1..], x + 1 - sizes[0]);
    if sizes[0] != x + 1 { EndsAhead(sizes[1..], x + 2 - sizes[0]); }
  }

  lemma KeptBroken(sections: seq<Bytes>, x: nat, sizes: seq<nat>)
    requires Sizes(sizes) && sizes != [] && x < sizes[0] && sections != [] && sizes[0] - x < |sections[0]|
    ensures var s, n := sections[0], sizes[0] - x;
            Kept(sections, x, sizes) == Current(Remembered(s[..n]), s[n..]) + Kept(sections[1..], |s[n..]|, sizes[1..])
  {
    var s, n := sections[0], sizes[0] - x;
    HeadedHere(sizes, x);
    assert s[..n] + s[n..] == s;
    KeptShift(sections[1..], x + |s|, sizes);
  }

  lemma {:induction false} KeptStep(sections: seq<Bytes>, x: nat, sizes: seq<nat>)
    requires Sizes(sizes) && sizes != [] && x <= sizes[0] && AllSendable(sections)
    ensures var found, left := Found(sections, sizes[0] - x), Left(sections, sizes[0] - x);
            Kept(sections, x, sizes)
            == found.0 + (Current(Remembered(found.1), left.0) + Kept(left.1, |left.0|, sizes[1..]))
    decreases |sections|
  {
    if sections == [] {
    } else if sizes[0] == x {
      KeptShift(sections, x, sizes);
    } else if sizes[0] - x < |sections[0]| {
      KeptBroken(sections, x, sizes);
    } else {
      assert Sendable(sections[0]);
      HeadedHere(sizes, x);
      KeptStep(sections[1..], x + |sections[0]|, sizes);
      var found, left := Found(sections[1..], sizes[0] - x - |sections[0]|),
          Left(sections[1..], sizes[0] - x - |sections[0]|);
      Associative([sections[0]], found.0, Current(Remembered(found.1), left.0) + Kept(left.1, |left.0|, sizes[1..]));
    }
  }

  lemma {:induction false} LeftSendable(sections: seq<Bytes>, n: nat)
    requires AllSendable(sections)
    ensures var (part, later) := Left(sections, n);
            var begun := Found(sections, n).1;
            && AllSendable(later) && |part| + |Flat(later)| + n >= |Flat(sections)|
            && (n <= |Flat(sections)| ==> |part| + |Flat(later)| + n == |Flat(sections)|)
            && (n >= |Flat(sections)| ==> part == [] && later == [])
            && (begun == [] <==> part == []) && (part != [] && begun != [] ==> AllSendable([begun + part]))
    decreases |sections|
  {
    if sections != [] && n > 0 {
      var s := sections[0];
      assert Sendable(s);
      if n < |s| { assert s[..n] + s[n..] == s; } else { LeftSendable(sections[1..], n - |s|); }
    }
  }

  // ---------------------------------------------------------------- what a payload does

  lemma ConsumeNext(s: Bytes, more: Bytes)
    requires Sendable(s)
    ensures Consume(s + more) == Consume(more).(sections := [s] + Consume(more).sections)
  {
    assert (s + more)[..|s|] == s && (s + more)[|s|..] == more;
  }

  /** A buffer of sections, the last of which may be broken, brings out the whole ones and keeps the rest. */
  lemma {:induction false} CompleteFound(sections: seq<Bytes>, n: nat, expecting: bool)
    requires AllSendable(sections) && n <= |Flat(sections)|
    ensures var c := Complete(Flat(sections)[..n], expecting);
            && c.sections == Found(sections, n).0 && c.rest == Found(sections, n).1
            && (expecting ==> (c.expecting <==> c.rest != []))
    decreases |sections|
  {
    if sections != [] && n > 0 {
      var s, more := sections[0], Flat(sections[1..]);
      assert Sendable(s);
      if n < |s| {
        assert (s + more)[..n] == s[..n];
      } else {
        assert (s + more)[..n] == s + more[..n - |s|];
        CompleteNext(s, more[..n - |s|], expecting);
        CompleteFound(sections[1..], n - |s|, expecting);
      }
    }
  }

  lemma CompleteNext(s: Bytes, more: Bytes, expecting: bool)
    requires Sendable(s)
    ensures var c := if more == [] then Cut([], [], false) else Complete(more, expecting);
            Complete(s + more, expecting) == c.(sections := [s] + c.sections)
  {
    assert (s + more)[..|s|] == s && (s + more)[|s|..] == more;
  }

  lemma ConsumeNone(n: nat)
    ensures Consume(Padded([], n)) == Cut([], [], false)
  {
    assert [] + Padding(n) == Padding(n);
  }

  lemma ConsumeBroken(s: Bytes, more: Bytes, n: nat)
    requires Sendable(s) && n < |s|
    ensures Consume(Padded(Take(s + more, n), n)) == Cut([], Remembered(s[..n]), Remembered(s[..n]) != [])
  {
    assert Padded(Take(s + more, n), n) == s[..n];
  }

  lemma TakeNext(s: Bytes, more: Bytes, n: nat)
    requires |s| <= n
    ensures Padded(Take(s + more, n), n) == s + Padded(Take(more, n - |s|), n - |s|)
  {}

  lemma {:induction false} ConsumeFound(sections: seq<Bytes>, n: nat)
    requires AllSendable(sections)
    ensures var (whole, begun) := Found(sections, n);
            Consume(Padded(Take(Flat(sections), n), n))
            == Cut(whole, Remembered(begun), Remembered(begun) != [])
    decreases |sections|
  {
    if sections == [] || n == 0 {
      ConsumeNone(n);
    } else {
      var s, more := sections[0], Flat(sections[1..]);
      assert Sendable(s);
      if n < |s| {
        ConsumeBroken(s, more, n);
      } else {
        ConsumeFound(sections[1..], n - |s|);
        ConsumeNext(s, Padded(Take(more, n - |s|), n - |s|));
        TakeNext(s, more, n);
      }
    }
  }

  /** A section is under way in `st`: `done` of it is remembered, nothing if it was forgotten, and `part` is to come. */
  ghost predicate Carries(st: State, done: Bytes, part: Bytes, counter: nat) {
    && (done != [] ==> part != [] && |done| >= 3 && AllSendable(Current(done, part)))
    && (part != [] ==> if done == [] then !st.expecting && st.buffer == []
                       else st == State(done, st.last, true) && counter % 16 == (st.last + 1) % 16)
  }

  lemma CarriesModulo(st: State, done: Bytes, part: Bytes, counter: nat)
    requires Carries(st, done, part, counter)
    ensures Carries(st, done, part, counter % 16)
  {}

  lemma NextCarries(st: State, done: Bytes, part: Bytes, counter: nat)
    requires st == State(done, counter % 16, done != [])
    requires done != [] ==> part != [] && |done| >= 3 && AllSendable(Current(done, part))
    ensures Carries(st, done, part, counter + 1)
  {
    ModNext(counter, counter % 16);
  }

  lemma StepInside(pid: nat, st: State, done: Bytes, part: Bytes, sections: seq<Bytes>, n: nat, counter: nat)
    returns (st': State)
    requires 0 < n <= 184 && n < |part| && Carries(st, done, part, counter)
    ensures Step(pid, st, PackedView(pid, part, sections, n, counter)) == (st', [])
    ensures Carries(st', if done == [] then [] else done + part[..n], part[n..], counter + 1)
  {
    var v := PackedView(pid, part, sections, n, counter);
    st' := Step(pid, st, v).0;
    assert v.payload == part[..n];
    if done != [] {
      var s := done + part;
      assert Sendable(Current(done, part)[0]);
      assert s[..|done| + n] == done + part[..n] && (done + part[..n]) + part[n..] == s;
      StepContinues(pid, st, v);
      PartOfSection(s, done + part[..n]);
      NextCarries(Step(pid, st, v).0, done + part[..n], part[n..], counter);
    }
  }

  lemma StepFinishes(pid: nat, st: State, done: Bytes, part: Bytes, sections: seq<Bytes>, n: nat, counter: nat)
    returns (st': State)
    requires 0 < n <= 184 && 0 < |part| <= n && (n == |part| || sections == []) && Carries(st, done, part, counter)
    ensures Step(pid, st, PackedView(pid, part, sections, n, counter)) == (st', Current(done, part))
  {
    var v := PackedView(pid, part, sections, n, counter);
    st' := Step(pid, st, v).0;
    assert v.payload == part + Padding(n - |part|);
    if done != [] {
      assert Sendable(Current(done, part)[0]);
      StepContinues(pid, st, v);
      Associative(done, part, Padding(n - |part|));
      WholeSection(done + part, n - |part|);
    }
  }

  /** The bytes before the pointer complete what is carried. */
  function Before(st: State, part: Bytes): seq<Bytes> {
    if st.buffer != [] && part != [] then Complete(st.buffer + part, st.expecting).sections else []
  }

  lemma StepPoints(pid: nat, st: State, v: View, part: Bytes, more: Bytes)
    requires Relevant(pid, v) && v.start && |part| < 256 && v.payload == [|part|] + (part + more)
    ensures var c := Consume(more);
            Step(pid, st, v) == (State(c.rest, v.counter, c.expecting), Before(Continue(st, v), part) + c.sections)
  {
    var p := v.payload[1..];
    assert p == part + more && p[..|part|] == part && p[|part|..] == more;
  }

  lemma BeforeIsCurrent(pid: nat, st: State, done: Bytes, part: Bytes, v: View)
    requires Carries(st, done, part, v.counter) && v.counter < 16
    ensures Before(Continue(st, v), part) == Current(done, part)
  {
    if done != [] {
      assert Sendable(Current(done, part)[0]);
      WholeSection(done + part, 0);
      assert (done + part) + Padding(0) == done + part;
    }
  }

  lemma ViewStarts(pid: nat, part: Bytes, sections: seq<Bytes>, n: nat, counter: nat) returns (more: Bytes)
    requires |part| < n <= 184 && sections != [] && AllSendable(sections)
    ensures PackedView(pid, part, sections, n, counter)
         == View(pid, false, true, counter % 16, [|part|] + (part + more))
    ensures var (whole, begun) := Found(sections, n - |part|);
            Consume(more) == Cut(whole, Remembered(begun), Remembered(begun) != [])
  {
    more := Padded(Take(Flat(sections), n - |part|), n - |part|);
    TakeNext(part, Flat(sections), n);
    ConsumeFound(sections, n - |part|);
  }

  lemma StepStarts(pid: nat, st: State, done: Bytes, part: Bytes, v: View, more: Bytes, whole: seq<Bytes>, rest: Bytes)
    requires |part| < 184 && Carries(st, done, part, v.counter) && v.counter < 16
    requires v == View(pid, false, true, v.counter, [|part|] + (part + more))
    requires Consume(more) == Cut(whole, rest, rest != [])
    ensures Step(pid, st, v) == (State(rest, v.counter, rest != []), Current(done, part) + whole)
  {
    StepPoints(pid, st, v, part, more);
    BeforeIsCurrent(pid, st, done, part, v);
  }

  /** The state after a payload in which sections start, `n` bytes of them. */
  function Begun(sections: seq<Bytes>, n: nat, counter: nat): State {
    var rest := Remembered(Found(sections, n).1);
    State(rest, counter % 16, rest != [])
  }

  lemma BegunCarries(sections: seq<Bytes>, n: nat, counter: nat)
    requires AllSendable(sections)
    ensures Carries(Begun(sections, n, counter), Remembered(Found(sections, n).1), Left(sections, n).0, counter + 1)
  {
    LeftSendable(sections, n);
    NextCarries(Begun(sections, n, counter), Remembered(Found(sections, n).1), Left(sections, n).0, counter);
  }

  lemma Starts(pid: nat, st: State, done: Bytes, part: Bytes, sections: seq<Bytes>, n: nat, counter: nat)
    requires |part| < n <= 184 && sections != [] && AllSendable(sections) && Carries(st, done, part, counter)
    ensures Step(pid, st, PackedView(pid, part, sections, n, counter))
         == (Begun(sections, n - |part|, counter), Current(done, part) + Found(sections, n - |part|).0)
  {
    var more := ViewStarts(pid, part, sections, n, counter);
    var (whole, begun) := Found(sections, n - |part|);
    CarriesModulo(st, done, part, counter);
    StepStarts(pid, st, done, part, PackedView(pid, part, sections, n, counter), more, whole, Remembered(begun));
  }

  // ------------------------------------------------------------------- payload by payload

  /** What is under way: what is remembered of a section, the rest of it, and the sections after it. */
  datatype Cursor = Cursor(done: Bytes, part: Bytes, sections: seq<Bytes>, counter: nat)

  function Next(c: Cursor, n: nat): Cursor {
    var m := n - |c.part|;
    if m < 0 then Cursor(if c.done == [] then [] else c.done + c.part[..n], c.part[n..], c.sections, c.counter + 1)
    else Cursor(Remembered(Found(c.sections, m).1), Left(c.sections, m).0, Left(c.sections, m).1, c.counter + 1)
  }

  function Out(c: Cursor, n: nat): seq<Bytes> {
    if n < |c.part| then [] else Current(c.done, c.part) + Found(c.sections, n - |c.part|).0
  }

  /** One payload brings out what it should and leaves the assembler with what is under way then. */
  ghost predicate Follows(pid: nat, st: State, c: Cursor, n: nat)
    requires n <= 184
  {
    var v := PackedView(pid, c.part, c.sections, n, c.counter);
    Step(pid, st, v).1 == Out(c, n) && Carries(Step(pid, st, v).0, Next(c, n).done, Next(c, n).part, c.counter + 1)
  }

  lemma FollowsInside(pid: nat, st: State, c: Cursor, n: nat) returns (st': State)
    requires 0 < n <= 184 && n < |c.part| && Carries(st, c.done, c.part, c.counter)
    ensures Step(pid, st, PackedView(pid, c.part, c.sections, n, c.counter)) == (st', Out(c, n))
    ensures Carries(st', Next(c, n).done, Next(c, n).part, c.counter + 1)
  {
    st' := StepInside(pid, st, c.done, c.part, c.sections, n, c.counter);
  }

  lemma FollowsFinish(pid: nat, st: State, c: Cursor, n: nat) returns (st': State)
    requires 0 < |c.part| <= n <= 184 && (n == |c.part| || c.sections == [])
    requires Carries(st, c.done, c.part, c.counter)
    ensures Step(pid, st, PackedView(pid, c.part, c.sections, n, c.counter)) == (st', Out(c, n))
    ensures Carries(st', Next(c, n).done, Next(c, n).part, c.counter + 1)
  {
    st' := StepFinishes(pid, st, c.done, c.part, c.sections, n, c.counter);
    NextIsLeft(c, n);
    assert Found(c.sections, n - |c.part|).0 == [] && Current(c.done, c.part) + [] == Current(c.done, c.part);
  }

  lemma FollowsStart(pid: nat, st: State, c: Cursor, n: nat) returns (st': State)
    requires |c.part| < n <= 184 && c.sections != [] && AllSendable(c.sections)
    requires Carries(st, c.done, c.part, c.counter)
    ensures Step(pid, st, PackedView(pid, c.part, c.sections, n, c.counter)) == (st', Out(c, n))
    ensures Carries(st', Next(c, n).done, Next(c, n).part, c.counter + 1)
  {
    Starts(pid, st, c.done, c.part, c.sections, n, c.counter);
    st' := Begun(c.sections, n - |c.part|, c.counter);
    BegunIsNext(c, n);
  }

  lemma BegunIsNext(c: Cursor, n: nat)
    requires |c.part| <= n && AllSendable(c.sections)
    ensures Carries(Begun(c.sections, n - |c.part|, c.counter), Next(c, n).done, Next(c, n).part, c.counter + 1)
    ensures Out(c, n) == Current(c.done, c.part) + Found(c.sections, n - |c.part|).0
  {
    BegunCarries(c.sections, n - |c.part|, c.counter);
    NextIsLeft(c, n);
  }

  lemma NextIsLeft(c: Cursor, n: nat)
    requires |c.part| <= n
    ensures var m := n - |c.part|;
            && Next(c, n).done == Remembered(Found(c.sections, m).1)
            && Next(c, n).part == Left(c.sections, m).0 && Next(c, n).sections == Left(c.sections, m).1
  {}

  // --------------------------------------------------------------------- the round trip

  ghost function Outs(c: Cursor, sizes: seq<nat>): seq<Bytes>
    decreases |sizes|
  {
    if sizes == [] then [] else Out(c, sizes[0]) + Outs(Next(c, sizes[0]), sizes[1..])
  }

  ghost predicate Fits(c: Cursor, sizes: seq<nat>) {
    && AllSendable(c.sections) && |c.part| + |Flat(c.sections)| <= Sum(sizes) && (c.done != [] ==> c.part != [])
  }

  lemma NextFits(c: Cursor, sizes: seq<nat>)
    requires Fits(c, sizes) && sizes != []
    ensures Fits(Next(c, sizes[0]), sizes[1..])
  {
    LeftSendable(c.sections, if sizes[0] < |c.part| then 0 else sizes[0] - |c.part|);
  }

  lemma {:induction false} OutsNothing(c: Cursor, sizes: seq<nat>)
    requires c.done == [] && c.part == [] && c.sections == []
    ensures Outs(c, sizes) == []
    decreases |sizes|
  {
    if sizes != [] { OutsNothing(Next(c, sizes[0]), sizes[1..]); }
  }

  lemma PackedFirst(pid: nat, c: Cursor, sizes: seq<nat>)
    requires Sizes(sizes) && sizes != [] && (c.part != [] || Flat(c.sections) != [])
    ensures var next := Next(c, sizes[0]);
            Packed(pid, c.part, c.sections, sizes, c.counter)
            == [PackedView(pid, c.part, c.sections, sizes[0], c.counter)]
               + Packed(pid, next.part, next.sections, sizes[1..], next.counter)
  {
    assert c.part + Flat(c.sections) != [];
  }

  lemma FollowsAny(pid: nat, st: State, c: Cursor, n: nat)
    requires 0 < n <= 184 && AllSendable(c.sections) && Carries(st, c.done, c.part, c.counter)
    requires c.part != [] || c.sections != []
    ensures Follows(pid, st, c, n)
  {
    if n < |c.part| {
      var st' := FollowsInside(pid, st, c, n);
    } else if |c.part| < n && c.sections != [] {
      var st' := FollowsStart(pid, st, c, n);
    } else {
      var st' := FollowsFinish(pid, st, c, n);
    }
  }

  lemma {:induction false} EmitsOuts(pid: nat, st: State, c: Cursor, sizes: seq<nat>)
    requires Sizes(sizes) && Fits(c, sizes) && Carries(st, c.done, c.part, c.counter)
    ensures Emitted(pid, st, Packed(pid, c.part, c.sections, sizes, c.counter)) == Outs(c, sizes)
    decreases |sizes|
  {
    if c.part == [] && c.sections == [] {
      OutsNothing(c, sizes);
    } else {
      if c.sections != [] { FlatSome(c.sections); }
      var v := PackedView(pid, c.part, c.sections, sizes[0], c.counter);
      var next := Next(c, sizes[0]);
      FollowsAny(pid, st, c, sizes[0]);
      NextFits(c, sizes);
      PackedFirst(pid, c, sizes);
      EmitsOuts(pid, Step(pid, st, v).0, next, sizes[1..]);
      EmittedFirst(pid, st, v, Packed(pid, next.part, next.sections, sizes[1..], next.counter));
    }
  }

  lemma FlatSome(sections: seq<Bytes>)
    requires AllSendable(sections) && sections != []
    ensures Flat(sections) != []
  {
    assert Sendable(sections[0]);
  }

  lemma KeptInside(c: Cursor, sizes: seq<nat>)
    requires Sizes(sizes) && sizes != [] && sizes[0] < |c.part|
    ensures var next := Next(c, sizes[0]);
            Current(c.done, c.part) + Kept(c.sections, |c.part|, sizes)
            == Current(next.done, next.part) + Kept(next.sections, |next.part|, sizes[1..])
  {
    var n := sizes[0];
    KeptShift(c.sections, |c.part|, sizes);
    assert (c.done + c.part[..n]) + c.part[n..] == c.done + c.part;
  }

  lemma KeptNext(c: Cursor, sizes: seq<nat>)
    requires Sizes(sizes) && sizes != [] && AllSendable(c.sections)
    ensures var next := Next(c, sizes[0]);
            Current(c.done, c.part) + Kept(c.sections, |c.part|, sizes)
            == Out(c, sizes[0]) + (Current(next.done, next.part) + Kept(next.sections, |next.part|, sizes[1..]))
  {
    var next := Next(c, sizes[0]);
    if sizes[0] < |c.part| {
      KeptInside(c, sizes);
    } else {
      KeptStep(c.sections, |c.part|, sizes);
      NextIsLeft(c, sizes[0]);
      Associative(Current(c.done, c.part), Found(c.sections, sizes[0] - |c.part|).0,
                  Current(next.done, next.part) + Kept(next.sections, |next.part|, sizes[1..]));
    }
  }

  /** The payloads bring out the section under way, and those of the others whose first three bytes are in one
      payload. */
  lemma {:induction false} OutsAreKept(c: Cursor, sizes: seq<nat>)
    requires Sizes(sizes) && Fits(c, sizes)
    ensures Outs(c, sizes) == Current(c.done, c.part) + Kept(c.sections, |c.part|, sizes)
    decreases |sizes|
  {
    if sizes == [] {
      if c.sections != [] { FlatSome(c.sections); }
    } else {
      NextFits(c, sizes);
      OutsAreKept(Next(c, sizes[0]), sizes[1..]);
      KeptNext(c, sizes);
    }
  }

  ghost predicate AllHeaded(sections: seq<Bytes>, x: nat, sizes: seq<nat>) {
    sections == [] || (Headed(sizes, x) && AllHeaded(sections[1..], x + |sections[0]|, sizes))
  }

  lemma {:induction false} KeptAllExactly(sections: seq<Bytes>, x: nat, sizes: seq<nat>)
    ensures |Kept(sections, x, sizes)| <= |sections|
    ensures Kept(sections, x, sizes) == sections <==> AllHeaded(sections, x, sizes)
    decreases |sections|
  {
    if sections != [] {
      KeptAllExactly(sections[1..], x + |sections[0]|, sizes);
      assert sections == [sections[0]] + sections[1..];
    }
  }

  /** From any state, sections laid end to end in payloads of any sizes come out as they went in exactly if none of
      them starts in the last two bytes of a payload. */
  lemma PackedRoundTrip(pid: nat, st: State, sections: seq<Bytes>, sizes: seq<nat>, counter: nat)
    requires Sizes(sizes) && AllSendable(sections) && |Flat(sections)| <= Sum(sizes)
    ensures Emitted(pid, st, Packed(pid, [], sections, sizes, counter)) == Kept(sections, 0, sizes)
    ensures Emitted(pid, st, Packed(pid, [], sections, sizes, counter)) == sections <==> AllHeaded(sections, 0, sizes)
  {
    EmitsOuts(pid, st, Cursor([], [], sections, counter), sizes);
    OutsAreKept(Cursor([], [], sections, counter), sizes);
    KeptAllExactly(sections, 0, sizes);
  }

  // ------------------------------------------------------------------------ the stream

  /** The section bytes of some packets. */
  function Data(views: seq<View>): Bytes
    requires forall v | v in views :: v.payload != []
  {
    if views == [] then []
    else (if views[0].start then views[0].payload[1..] else views[0].payload) + Data(views[1..])
  }

  /** The packets carry the rest of the section under way and the sections after it, filled up at the end. */
  lemma {:induction false} PackedData(pid: nat, c: Cursor, sizes: seq<nat>) returns (n: nat)
    requires Sizes(sizes) && Fits(c, sizes)
    ensures var views := Packed(pid, c.part, c.sections, sizes, c.counter);
            && (forall v | v in views :: v.payload != [])
            && Data(views) == c.part + Flat(c.sections) + Padding(n)
    decreases |sizes|
  {
    n := 0;
    if c.part + Flat(c.sections) != [] {
      var next := Next(c, sizes[0]);
      NextFits(c, sizes);
      var k := PackedData(pid, next, sizes[1..]);
      var v := PackedView(pid, c.part, c.sections, sizes[0], c.counter);
      PackedFirst(pid, c, sizes);
      var all := c.part + Flat(c.sections);
      LeftIsSkip(c.part, c.sections, sizes[0]);
      n := if |all| <= sizes[0] then k + sizes[0] - |all| else k;
      var more := Packed(pid, next.part, next.sections, sizes[1..], next.counter);
      assert (if v.start then v.payload[1..] else v.payload) == Padded(Take(all, sizes[0]), sizes[0]);
      TakeSkip(all, sizes[0], k);
      DataFirst(v, more);
    }
  }

  lemma DataFirst(v: View, more: seq<View>)
    requires v.payload != [] && forall w | w in more :: w.payload != []
    ensures (forall w | w in [v] + more :: w.payload != [])
    ensures Data([v] + more) == (if v.start then v.payload[1..] else v.payload) + Data(more)
  {}

  lemma TakeSkip(all: Bytes, n: nat, k: nat)
    ensures Padded(Take(all, n), n) + (Skip(all, n) + Padding(k))
         == all + Padding(if |all| <= n then k + n - |all| else k)
  {}

  lemma {:induction false} LeftIsSkip(part: Bytes, sections: seq<Bytes>, n: nat)
    ensures var (part', later) := Later(part, sections, n); part' + Flat(later) == Skip(part + Flat(sections), n)
    decreases |sections|
  {
    if n >= |part| && sections != [] && n > |part| {
      LeftIsSkip(sections[0], sections[1..], n - |part|);
      assert Later(sections[0], sections[1..], n - |part|) == Left(sections, n - |part|);
    }
  }

  // ------------------------------------------------------------- a section that is lost

  /** A section of `n` bytes. */
  function Plain(n: nat): Bytes
    requires 7 <= n <= 258
  {
    TsGap.Closed(0xffff_ffff, [0, 0, n - 3] + TsGap.Zeros(n - 7))
  }

  lemma PlainIsSendable(n: nat)
    requires 7 <= n <= 258
    ensures Sendable(Plain(n)) && |Plain(n)| == n
  {
    var b := [0, 0, n - 3] + TsGap.Zeros(n - 7);
    TsGap.ClosedClears(0xffff_ffff, b);
    assert Plain(n)[..n] == Plain(n) && Plain(n)[1] == 0 && Plain(n)[2] == n - 3;
  }

  /** The second of two sections, of which the first payload holds two bytes, does not come out. */
  lemma ShortHeadIsLost(pid: nat, st: State)
    ensures Sendable(Plain(181)) && Sendable(Plain(20))
    ensures Emitted(pid, st, Packed(pid, [], [Plain(181), Plain(20)], [183, 183], 0)) == [Plain(181)]
  {
    var sections, sizes := [Plain(181), Plain(20)], [183, 183];
    PlainIsSendable(181);
    PlainIsSendable(20);
    assert sections[1..] == [Plain(20)] && sizes[1..] == [183] && Sum([183]) == 183;
    assert Flat([Plain(20)]) == Plain(20);
    PackedRoundTrip(pid, st, sections, sizes, 0);
    assert Ends(sizes, 183);
    HeadedHere(sizes, 0);
    assert Kept([Plain(20)], 181, sizes) == [];
  }
}
