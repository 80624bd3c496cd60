/** Transport-stream packets as bytes, the packetizer's loop, and the section assembler as an object. */
module TsAssembler {
  import opened Basics
  import opened TsSection

  const PACKET_SIZE := 188

  // -------------------------------------------------------------------- packets

  /** What the header of a packet says (ts/packet.go). */
  function PacketView(p: Bytes): View
    requires |p| == PACKET_SIZE
  {
    var control := p[3] / 16 % 4;
    var offset := if control >= 2 then 5 + p[4] as int else 4;
    var payload := if control % 2 == 0 || offset > PACKET_SIZE then [] else p[offset..];
    View((p[1] as int % 32) * 256 + p[2] as int, p[1] / 128 == 1, p[1] / 64 % 2 == 1, p[3] % 16, payload)
  }

  /** The room for section bytes, and the four or five bytes before it. */
  function Room(first: bool): nat { if first then 183 else 184 }

  function Header(pid: nat, first: bool, counter: nat): Bytes
    requires pid < 0x2000
  {
    var h := [0x47, pid / 256 + (if first then 0x40 else 0), pid % 256, 0x10 + counter % 16];
    if first then h + [0] else h
  }

  function PacketBytes(pid: nat, first: bool, counter: nat, chunk: Bytes): (p: Bytes)
    requires pid < 0x2000 && |chunk| <= Room(first)
    ensures |p| == PACKET_SIZE
  {
    Header(pid, first, counter) + Padded(chunk, Room(first))
  }

  lemma FirstReads(pid: nat, s: Bytes, counter: nat)
    requires pid < 0x2000
    ensures PacketView(PacketBytes(pid, true, counter, Take(s, 183))) == FirstView(pid, s, counter)
  {
    var p := PacketBytes(pid, true, counter, Take(s, 183));
    HeaderReads(pid, true, counter);
    assert p[..4] == Header(pid, true, counter)[..4];
    assert p[1] == p[..4][1] && p[2] == p[..4][2] && p[3] == p[..4][3];
    assert p[4..] == [0] + Padded(Take(s, 183), 183);
  }

  lemma RestReads(pid: nat, rest: Bytes, counter: nat)
    requires pid < 0x2000
    ensures PacketView(PacketBytes(pid, false, counter, Take(rest, 184))) == RestView(pid, rest, counter)
  {
    var p := PacketBytes(pid, false, counter, Take(rest, 184));
    HeaderReads(pid, false, counter);
    assert p[..4] == Header(pid, false, counter)[..4];
    assert p[1] == p[..4][1] && p[2] == p[..4][2] && p[3] == p[..4][3];
    assert p[4..] == Padded(Take(rest, 184), 184);
  }

  function AdaptationHeader(pid: nat, first: bool, counter: nat, filled: bool): Bytes
    requires pid < 0x2000
  {
    [0x47, pid / 256 + (if first then 0x40 else 0), pid % 256, (if filled then 0x30 else 0x20) + counter % 16]
  }

  lemma AdaptationHeaderReads(pid: nat, first: bool, counter: nat, filled: bool)
    requires pid < 0x2000
    ensures var h := AdaptationHeader(pid, first, counter, filled);
            && (h[1] as int % 32) * 256 + h[2] as int == pid && h[1] / 128 == 0 && (h[1] / 64 % 2 == 1 <==> first)
            && h[3] / 16 % 4 == (if filled then 3 else 2) && h[3] % 16 == counter % 16
  {
    var high := pid / 256;
    assert high < 32 && pid == high * 256 + pid % 256;
  }

  /** A packet with an adaptation field, which the payload follows if there is one. */
  function WithAdaptation(pid: nat, first: bool, counter: nat, filled: bool, field: Bytes, payload: Bytes): (p: Bytes)
    requires pid < 0x2000 && |field| + |payload| == 183
    ensures |p| == PACKET_SIZE
  {
    AdaptationHeader(pid, first, counter, filled) + ([|field|] + (field + payload))
  }

  /** The payload starts behind the adaptation field, if the packet says it has one. */
  lemma AdaptationReads(pid: nat, first: bool, counter: nat, filled: bool, field: Bytes, payload: Bytes)
    requires pid < 0x2000 && |field| + |payload| == 183
    ensures PacketView(WithAdaptation(pid, first, counter, filled, field, payload))
         == View(pid, false, first, counter % 16, if filled then payload else [])
  {
    var p, h := WithAdaptation(pid, first, counter, filled, field, payload),
        AdaptationHeader(pid, first, counter, filled);
    AdaptationHeaderReads(pid, first, counter, filled);
    assert p[1] == h[1] && p[2] == h[2] && p[3] == h[3] && p[4] == |field|;
    assert p[5 + |field|..] == payload;
  }

  lemma HeaderReads(pid: nat, first: bool, counter: nat)
    requires pid < 0x2000
    ensures var h := Header(pid, first, counter);
            && (h[1] as int % 32) * 256 + h[2] as int == pid && h[1] / 128 == 0 && (h[1] / 64 % 2 == 1 <==> first)
            && h[3] / 16 % 4 == 1 && h[3] % 16 == counter % 16
  {
    var high := pid / 256;
    assert high < 32 && pid == high * 256 + pid % 256;
  }

  // ----------------------------------------------------------------- packetizing

  /** Fills a packet with stuffing, then writes the header and as much of the section as fits. */
  method BuildPacket(pid: nat, first: bool, counter: nat, remaining: Bytes) returns (packet: array<Byte>, n: nat)
    requires pid < 0x2000
    ensures fresh(packet) && packet.Length == PACKET_SIZE
    ensures packet[..] == PacketBytes(pid, first, counter, Take(remaining, Room(first)))
    ensures n == |Take(remaining, Room(first))|
  {
    packet := new Byte[PACKET_SIZE](i => STUFFING);
    packet[0], packet[1] := 0x47, pid / 256;
    if first { packet[1] := packet[1] + 0x40; }
    packet[2], packet[3] := pid % 256, 0x10 + counter % 16;
    var offset := 4;
    if first {
      packet[4] := 0;
      offset := 5;
    }
    n := if |remaining| <= PACKET_SIZE - offset then |remaining| else PACKET_SIZE - offset;
    assert packet[..offset] == Header(pid, first, counter);
    assert forall i | offset <= i < PACKET_SIZE :: packet[i] == STUFFING;
    Copy(packet, offset, remaining[..n]);
    assert packet[..offset] == Header(pid, first, counter);
    assert packet[offset..] == Padded(remaining[..n], Room(first));
    assert packet[..] == packet[..offset] + packet[offset..];
  }

  method NextPacket(pid: nat, first: bool, counter: nat, remaining: Bytes) returns (packet: Bytes, n: nat)
    requires pid < 0x2000
    ensures packet == PacketBytes(pid, first, counter, Take(remaining, Room(first)))
    ensures n == |Take(remaining, Room(first))|
  {
    var a;
    a, n := BuildPacket(pid, first, counter, remaining);
    packet := a[..];
  }

  method Copy(packet: array<Byte>, offset: nat, data: Bytes)
    requires offset + |data| <= packet.Length
    modifies packet
    ensures forall i | 0 <= i < packet.Length ::
              packet[i] == if offset <= i < offset + |data| then data[i - offset] else old(packet[i])
  {
    for j := 0 to |data|
      invariant forall i | 0 <= i < packet.Length ::
                  packet[i] == if offset <= i < offset + j then data[i - offset] else old(packet[i])
    {
      packet[offset + j] := data[j];
    }
  }

  /** The packets of a section are read as its views, and the counter moves on by their number. */
  method PacketizeSection(pid: nat, section: Bytes, start: nat) returns (packets: seq<Bytes>, counter: nat)
    requires pid < 0x2000
    ensures Reads(packets, SectionViews(pid, section, start)) && counter == (start + |packets|) % 16
  {
    packets, counter := [], start;
    var remaining, first := section, true;
    ghost var done: seq<View> := [];
    ghost var left := ViewsFrom(pid, true, section, start);
    assert done + left == left;
    while first || remaining != []
      invariant counter % 16 == (start + |packets|) % 16 && (!first ==> counter < 16)
      invariant Reads(packets, done) && done + left == ViewsFrom(pid, true, section, start)
      invariant left == ViewsFrom(pid, first, remaining, counter)
      decreases first, |remaining|
    {
      var packet, n := NextPacket(pid, first, counter, remaining);
      ViewReads(pid, first, remaining, counter);
      ReadsMore(packets, done, left, packet);
      CounterMore(counter, start, |packets|);
      packets := packets + [packet];
      counter := (counter + 1) % 16;
      remaining := remaining[n..];
      first := false;
      done, left := done + [left[0]], left[1..];
    }
    assert done + [] == done;
  }

  lemma CounterMore(counter: nat, start: nat, n: nat)
    requires counter % 16 == (start + n) % 16
    ensures (counter + 1) % 16 % 16 == (start + (n + 1)) % 16
  {
    ModNext(counter, start + n);
  }

  function ViewsFrom(pid: nat, first: bool, remaining: Bytes, counter: nat): seq<View> {
    if first then SectionViews(pid, remaining, counter) else RestViews(pid, remaining, counter)
  }

  lemma {:induction false} ViewReads(pid: nat, first: bool, remaining: Bytes, counter: nat)
    requires pid < 0x2000 && (first || remaining != [])
    ensures var views := ViewsFrom(pid, first, remaining, counter);
            && views != [] && PacketView(PacketBytes(pid, first, counter, Take(remaining, Room(first)))) == views[0]
            && views[1..] == ViewsFrom(pid, false, remaining[|Take(remaining, Room(first))|..], (counter + 1) % 16)
  {
    var n := Room(first);
    assert remaining[|Take(remaining, n)|..] == Skip(remaining, n);
    if first { FirstReads(pid, remaining, counter); } else { RestReads(pid, remaining, counter); }
  }

  lemma ReadsMore(packets: seq<Bytes>, done: seq<View>, left: seq<View>, packet: Bytes)
    requires Reads(packets, done) && left != [] && |packet| == PACKET_SIZE && PacketView(packet) == left[0]
    ensures Reads(packets + [packet], done + [left[0]]) && (done + [left[0]]) + left[1..] == done + left
  {}

  /** These packets are read as these views. */
  ghost predicate Reads(packets: seq<Bytes>, views: seq<View>) {
    |packets| == |views| && forall i | 0 <= i < |packets| ::
          |packets[i]| == PACKET_SIZE && PacketView(packets[i]) == views[i]
  }

  // --------------------------------------------------------------------- assembling

  class SectionAssembler {
    const pid: nat
    var buffer: Bytes
    var lastCounter: nat
    var expecting: bool
    var pending: seq<Bytes>

    ghost function S(): State
      reads this
    {
      State(buffer, lastCounter, expecting)
    }

    constructor (pid: nat)
      ensures S() == FRESH && pending == [] && this.pid == pid
    {
      this.pid, buffer, lastCounter, expecting, pending := pid, [], 0, false, [];
    }

    /** Feeding a packet takes the specified step and returns what it completes. */
    method FeedAll(p: Bytes) returns (sections: seq<Bytes>)
      requires |p| == PACKET_SIZE
      modifies this`buffer, this`lastCounter, this`expecting
      ensures (S(), sections) == Step(pid, old(S()), PacketView(p))
    {
      var v := PacketView(p);
      sections := [];
      if v.pid != pid || v.error || v.payload == [] { return; }
      if expecting && v.counter != (lastCounter + 1) % 16 { buffer, expecting := [], false; }
      lastCounter := v.counter;
      if v.start {
        var pointer, payload := v.payload[0], v.payload[1..];
        if pointer > |payload| {
          buffer, expecting := [], false;
          return;
        }
        if buffer != [] && pointer > 0 {
          buffer := buffer + payload[..pointer];
          sections := CompleteSections();
        }
        buffer, expecting := [], false;
        var more := ConsumePayload(payload[pointer..]);
        sections := sections + more;
        return;
      }
      if !expecting { return; }
      buffer := buffer + v.payload;
      sections := CompleteSections();
    }

    method ConsumePayload(start: Bytes) returns (sections: seq<Bytes>)
      requires buffer == [] && !expecting
      modifies this`buffer, this`expecting
      ensures Cut(sections, buffer, expecting) == Consume(start)
    {
      sections := [];
      var payload := start;
      while |payload| >= 3 && payload[0] != STUFFING
        invariant buffer == [] && !expecting && Consume(start) == Join(sections, Consume(payload))
        decreases |payload|
      {
        var total := Total(payload);
        if |payload| < total {
          buffer, expecting := payload, true;
          return;
        }
        var section := payload[..total];
        if ValidCrc(section) {
          JoinOne(sections, section, Consume(payload[total..]));
          sections := sections + [section];
        }
        payload := payload[total..];
      }
    }

    method CompleteSections() returns (sections: seq<Bytes>)
      modifies this`buffer, this`expecting
      ensures Cut(sections, buffer, expecting) == Complete(old(buffer), old(expecting))
    {
      sections := [];
      while |buffer| >= 3
        invariant Complete(old(buffer), old(expecting))
                  == Join(sections, if buffer == [] then Cut([], [], false) else Complete(buffer, expecting))
        invariant expecting == old(expecting)
        decreases |buffer|
      {
        var total := Total(buffer);
        if |buffer| < total {
          expecting := true;
          return;
        }
        var section := buffer[..total];
        var rest := buffer[total..];
        if ValidCrc(section) {
          JoinOne(sections, section, if rest == [] then Cut([], [], false) else Complete(rest, expecting));
          sections := sections + [section];
        }
        buffer := rest;
        if buffer == [] { break; }
      }
      if buffer == [] { expecting := false; }
    }

    /** One section at a time: a packet fed while sections are waiting is not looked at. */
    method Feed(p: Bytes) returns (section: Option<Bytes>)
      requires |p| == PACKET_SIZE
      modifies this
      ensures old(pending) != [] ==> section == Some(old(pending)[0]) && pending == old(pending)[1..] && S() == old(S())
      ensures old(pending) == [] ==>
                var (st, found) := Step(pid, old(S()), PacketView(p));
                S() == st && if found == [] then section == None && pending == []
                    else section == Some(found[0]) && pending == found[1..]
    {
      if pending != [] {
        section := Some(pending[0]);
        pending := pending[1..];
        return;
      }
      var sections := FeedAll(p);
      if sections == [] { return None; }
      if |sections| > 1 { pending := pending + sections[1..]; }
      return Some(sections[0]);
    }
  }

  function Join(before: seq<Bytes>, c: Cut): Cut { c.(sections := before + c.sections) }

  lemma JoinOne(before: seq<Bytes>, s: Bytes, c: Cut)
    ensures Join(before, c.(sections := [s] + c.sections)) == Join(before + [s], c)
  {}
}
