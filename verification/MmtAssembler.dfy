/**
 Joining divided signaling messages (mmt/mmtp.go, MessageAssembler): streams do not disturb
 each other, every sent message comes out once, and nothing else is ever joined.
 */
module MmtAssembler {
  import opened Basics
  import opened MmtPacket
  import opened MmtMessages

  const MAX_MESSAGE := 0x10_0000

  datatype Pending = Pending(data: Bytes, sequence: nat)

  /** An IP data flow and a packet_id. */
  type Key = (nat, nat)

  type Table = map<Key, Pending>

  /** The messages completed by a packet, or None for a malformed one. */
  type Reply = Option<seq<Bytes>>

  // -------------------------------------------------------------- one stream

  predicate Follows(pending: Option<Pending>, sequence: nat, data: Bytes) {
    pending.Some? && sequence == NextSequence(pending.value.sequence) && |pending.value.data| + |data| <= MAX_MESSAGE
  }

  /** What a packet makes of its stream's unfinished message. */
  function NextPending(pending: Option<Pending>, p: Packet): Option<Pending> {
    var s := ParseSignaling(p.payload);
    if p.payloadType != SIGNALING || s.None? then pending
    else if s.value.fragment == COMPLETE then None
    else if s.value.fragment == FIRST then Some(Pending(s.value.data, p.sequence))
    else if Follows(pending, p.sequence, s.value.data) && s.value.fragment == MIDDLE
    then Some(Pending(pending.value.data + s.value.data, p.sequence))
    else None
  }

  function ReplyTo(pending: Option<Pending>, p: Packet): Reply {
    var s := ParseSignaling(p.payload);
    if p.payloadType != SIGNALING then Some([])
    else if s.None? then None
    else if s.value.fragment == COMPLETE then MessagesOf(s.value)
    else if s.value.fragment == LAST && Follows(pending, p.sequence, s.value.data)
    then MessagesOf(s.value.(fragment := COMPLETE, data := pending.value.data + s.value.data))
    else Some([])
  }

  function Lookup(t: Table, k: Key): Option<Pending> { if k in t then Some(t[k]) else None }

  class MessageAssembler {
    var pending: Table

    constructor ()
      ensures pending == map[]
    {
      pending := map[];
    }

    /** Feeding a packet answers from, and changes, its own stream only. */
    method Feed(flow: nat, p: Packet) returns (reply: Reply)
      modifies this
      ensures reply == ReplyTo(Lookup(old(pending), (flow, p.packetId)), p)
      ensures Lookup(pending, (flow, p.packetId)) == NextPending(Lookup(old(pending), (flow, p.packetId)), p)
      ensures forall k | k != (flow, p.packetId) :: Lookup(pending, k) == Lookup(old(pending), k)
    {
      if p.payloadType != SIGNALING { return Some([]); }
      var parsed := ParseSignaling(p.payload);
      if parsed.None? { return None; }
      var s, key := parsed.value, (flow, p.packetId);
      if s.fragment == COMPLETE {
        pending := pending - {key};
        reply := Messages(s);
        return;
      }
      if s.fragment == FIRST {
        pending := pending[key := Pending(s.data, p.sequence)];
        return Some([]);
      }
      if key !in pending || p.sequence != NextSequence(pending[key].sequence)
         || |pending[key].data| + |s.data| > MAX_MESSAGE {
        pending := pending - {key};
        return Some([]);
      }
      var joined := pending[key].data + s.data;
      if s.fragment == MIDDLE {
        pending := pending[key := Pending(joined, p.sequence)];
        return Some([]);
      }
      pending := pending - {key};
      reply := Messages(s.(fragment := COMPLETE, data := joined));
    }
  }

  // ------------------------------------------------------------ many streams

  datatype Input = Input(flow: nat, packet: Packet) {
    function Key(): Key { (flow, packet.packetId) }
  }

  /** A stream's unfinished message after its packets. */
  function Unfinished(pending: Option<Pending>, ps: seq<Packet>): Option<Pending> {
    if ps == [] then pending else NextPending(Unfinished(pending, ps[..|ps| - 1]), ps[|ps| - 1])
  }

  function Found(reply: Reply): seq<Bytes> { if reply.Some? then reply.value else [] }

  /** All messages a stream's packets complete. */
  function Delivered(pending: Option<Pending>, ps: seq<Packet>): seq<Bytes> {
    if ps == [] then []
    else
      var n := |ps| - 1;
      Delivered(pending, ps[..n]) + Found(ReplyTo(Unfinished(pending, ps[..n]), ps[n]))
  }

  /** A table as feeding it may leave it. */
  ghost predicate Fed(t: Table, t': Table, i: Input) {
    Lookup(t', i.Key()) == NextPending(Lookup(t, i.Key()), i.packet)
    && forall k | k != i.Key() :: Lookup(t', k) == Lookup(t, k)
  }

  /** The tables along a run of inputs, one more than the inputs. */
  ghost predicate Run(tables: seq<Table>, inputs: seq<Input>) {
    |tables| == |inputs| + 1 && forall n | 0 <= n < |inputs| :: Fed(tables[n], tables[n + 1], inputs[n])
  }

  /** The packets of one stream. */
  function Stream(inputs: seq<Input>, k: Key): seq<Packet> {
    if inputs == [] then []
    else
      var n := |inputs| - 1;
      if inputs[n].Key() == k then Stream(inputs[..n], k) + [inputs[n].packet] else Stream(inputs[..n], k)
  }

  /** The messages completed on one stream in a run. */
  ghost function DeliveredOn(tables: seq<Table>, inputs: seq<Input>, k: Key): seq<Bytes>
    requires |tables| > |inputs|
  {
    if inputs == [] then []
    else
      var n := |inputs| - 1;
      var before := DeliveredOn(tables, inputs[..n], k);
      if inputs[n].Key() == k then before + Found(ReplyTo(Lookup(tables[n], k), inputs[n].packet)) else before
  }

  /** Whatever else is fed in between, a stream fares as it would alone. */
  lemma {:induction false} StreamsAreIndependent(tables: seq<Table>, inputs: seq<Input>, k: Key)
    requires Run(tables, inputs)
    ensures Lookup(tables[|inputs|], k) == Unfinished(Lookup(tables[0], k), Stream(inputs, k))
    ensures DeliveredOn(tables, inputs, k) == Delivered(Lookup(tables[0], k), Stream(inputs, k))
  {
    if inputs != [] {
      var n := |inputs| - 1;
      assert Fed(tables[n], tables[n + 1], inputs[n]);
      StreamsAreIndependent(tables[..n + 1], inputs[..n], k);
      SameTables(tables[..n + 1], tables, inputs[..n], k);
      var before := Stream(inputs[..n], k);
      assert (before + [inputs[n].packet])[..|before|] == before;
    }
  }

  lemma {:induction false} SameTables(ts: seq<Table>, ts': seq<Table>, inputs: seq<Input>, k: Key)
    requires |ts'| >= |ts| > |inputs| && ts'[..|ts|] == ts
    ensures DeliveredOn(ts, inputs, k) == DeliveredOn(ts', inputs, k)
  {
    if inputs != [] {
      var n := |inputs| - 1;
      assert ts'[..|ts|][n] == ts[n];
      SameTables(ts, ts', inputs[..n], k);
    }
  }

  // ----------------------------------------------------------- what was sent comes out

  lemma {:induction false} UnfinishedConcat(pending: Option<Pending>, a: seq<Packet>, b: seq<Packet>)
    ensures Unfinished(pending, a + b) == Unfinished(Unfinished(pending, a), b)
  {
    if b == [] {
      assert a + b == a;
    } else {
      var n := |b| - 1;
      assert (a + b)[..|a| + n] == a + b[..n] && (a + b)[|a| + n] == b[n];
      UnfinishedConcat(pending, a, b[..n]);
    }
  }

  lemma {:induction false} DeliveredConcat(pending: Option<Pending>, a: seq<Packet>, b: seq<Packet>)
    ensures Delivered(pending, a + b) == Delivered(pending, a) + Delivered(Unfinished(pending, a), b)
  {
    if b == [] {
      assert a + b == a;
    } else {
      var n := |b| - 1;
      var ab := a + b;
      assert ab[..|ab| - 1] == a + b[..n] && ab[|ab| - 1] == b[n];
      UnfinishedConcat(pending, a, b[..n]);
      DeliveredConcat(pending, a, b[..n]);
      DeliveredStep(pending, ab);
      DeliveredStep(Unfinished(pending, a), b);
      Associative(Delivered(pending, a), Delivered(Unfinished(pending, a), b[..n]),
                  Found(ReplyTo(Unfinished(Unfinished(pending, a), b[..n]), b[n])));
    }
  }

  lemma DeliveredStep(pending: Option<Pending>, ps: seq<Packet>)
    requires ps != []
    ensures var n := |ps| - 1;
            Delivered(pending, ps) == Delivered(pending, ps[..n]) + Found(ReplyTo(Unfinished(pending, ps[..n]), ps[n]))
  {}

  lemma JustOne(pending: Option<Pending>, p: Packet)
    ensures Unfinished(pending, [p]) == NextPending(pending, p) && Delivered(pending, [p]) == Found(ReplyTo(pending, p))
  {}

  lemma PrependOne(pending: Option<Pending>, p: Packet, more: seq<Packet>)
    ensures Unfinished(pending, [p] + more) == Unfinished(NextPending(pending, p), more)
    ensures Delivered(pending, [p] + more) == Found(ReplyTo(pending, p)) + Delivered(NextPending(pending, p), more)
  {
    JustOne(pending, p);
    UnfinishedConcat(pending, [p], more);
    DeliveredConcat(pending, [p], more);
  }

  function Extended(pending: Option<Pending>, sequence: nat, data: Bytes): Option<Pending> {
    if Follows(pending, sequence, data) then Some(Pending(pending.value.data + data, sequence)) else None
  }

  lemma FragmentSteps(pending: Option<Pending>, packetId: nat, sequence: nat, counter: nat, data: Bytes)
    ensures var p := SignalingPacket(packetId, sequence, PrintSignaling(FIRST, counter, data));
            NextPending(pending, p) == Some(Pending(data, sequence)) && Found(ReplyTo(pending, p)) == []
    ensures var p := SignalingPacket(packetId, sequence, PrintSignaling(MIDDLE, counter, data));
            NextPending(pending, p) == Extended(pending, sequence, data) && Found(ReplyTo(pending, p)) == []
    ensures var p := SignalingPacket(packetId, sequence, PrintSignaling(COMPLETE, counter, data));
            NextPending(pending, p) == None && Found(ReplyTo(pending, p)) == [data]
    ensures var p := SignalingPacket(packetId, sequence, PrintSignaling(LAST, counter, data));
            var e := Extended(pending, sequence, data);
            NextPending(pending, p) == None && Found(ReplyTo(pending, p)) == if e.Some? then [e.value.data] else []
  {
    SignalingReads(FIRST, counter, data);
    SignalingReads(MIDDLE, counter, data);
    SignalingReads(COMPLETE, counter, data);
    SignalingReads(LAST, counter, data);
  }

  ghost predicate InSequence(pending: Option<Pending>, sequence: nat) {
    pending.Some? ==> sequence == NextSequence(pending.value.sequence)
  }

  function Joined(pending: Option<Pending>, rest: Bytes): seq<Bytes> {
    if pending.Some? && |pending.value.data| + |rest| <= MAX_MESSAGE then [pending.value.data + rest] else []
  }

  lemma JoinedTwice(pending: Option<Pending>, sequence: nat, a: Bytes, b: Bytes)
    requires InSequence(pending, sequence)
    ensures Joined(Extended(pending, sequence, a), b) == Joined(pending, a + b)
  {
    if pending.Some? { Associative(pending.value.data, a, b); }
  }

  /** The rest of a message completes what came before, unless that would be too long. */
  lemma {:induction false} RestDelivers(packetId: nat, sequence: nat, rest: Bytes, size: nat, pending: Option<Pending>)
    requires size > 0 && InSequence(pending, sequence)
    ensures var ps := RestPackets(packetId, sequence, rest, size);
            Unfinished(pending, ps) == None && Delivered(pending, ps) == Joined(pending, rest)
    decreases |rest|
  {
    var ps := RestPackets(packetId, sequence, rest, size);
    if |rest| <= size {
      FragmentSteps(pending, packetId, sequence, 0, rest);
      JustOne(pending, ps[0]);
    } else {
      var more := RestPackets(packetId, NextSequence(sequence), rest[size..], size);
      FragmentSteps(pending, packetId, sequence, |more|, rest[..size]);
      PrependOne(pending, ps[0], more);
      RestDelivers(packetId, NextSequence(sequence), rest[size..], size, Extended(pending, sequence, rest[..size]));
      JoinedTwice(pending, sequence, rest[..size], rest[size..]);
      assert rest == rest[..size] + rest[size..];
    }
  }

  lemma {:induction false} RestSilent(packetId: nat, sequence: nat, rest: Bytes, size: nat, pending: Option<Pending>)
    requires size > 0
    ensures var ps := RestPackets(packetId, sequence, rest, size);
            Delivered(pending, ps[..|ps| - 1]) == []
    decreases |rest|
  {
    var ps := RestPackets(packetId, sequence, rest, size);
    if |rest| <= size {
      assert ps[..0] == [];
    } else {
      var more := RestPackets(packetId, NextSequence(sequence), rest[size..], size);
      FragmentSteps(pending, packetId, sequence, |more|, rest[..size]);
      RestSilent(packetId, NextSequence(sequence), rest[size..], size, Extended(pending, sequence, rest[..size]));
      assert ps[..|ps| - 1] == [ps[0]] + more[..|more| - 1];
      PrependOne(pending, ps[0], more[..|more| - 1]);
    }
  }

  datatype Send = Send(sequence: nat, message: Bytes, size: nat)

  predicate Sendable(s: Send) { (|s.message| <= s.size || s.size > 0) && s.sequence < 0x1_0000_0000 }

  predicate Deliverable(s: Send) { |s.message| <= s.size || |s.message| <= MAX_MESSAGE }

  /** Whatever was pending, a sent message comes out once, with its last packet, unless it is
      divided and too long. */
  lemma MessageDelivered(packetId: nat, s: Send, pending: Option<Pending>)
    requires Sendable(s)
    ensures var ps := Sent(packetId, s.sequence, s.message, s.size);
            && |ps| > 0 && Unfinished(pending, ps) == None
            && Delivered(pending, ps[..|ps| - 1]) == []
            && Delivered(pending, ps) == if Deliverable(s) then [s.message] else []
  {
    var ps := Sent(packetId, s.sequence, s.message, s.size);
    if |s.message| <= s.size {
      FragmentSteps(pending, packetId, s.sequence, 0, s.message);
      JustOne(pending, ps[0]);
      assert ps[..0] == [];
    } else {
      var first, rest := s.message[..s.size], s.message[s.size..];
      var more := RestPackets(packetId, NextSequence(s.sequence), rest, s.size);
      FragmentSteps(pending, packetId, s.sequence, |more|, first);
      var next := Some(Pending(first, s.sequence));
      RestDelivers(packetId, NextSequence(s.sequence), rest, s.size, next);
      RestSilent(packetId, NextSequence(s.sequence), rest, s.size, next);
      assert first + rest == s.message;
      assert ps == [ps[0]] + more && ps[..|ps| - 1] == [ps[0]] + more[..|more| - 1];
      PrependOne(pending, ps[0], more);
      PrependOne(pending, ps[0], more[..|more| - 1]);
    }
  }

  function SentAll(packetId: nat, sends: seq<Send>): seq<Packet>
    requires forall i | 0 <= i < |sends| :: Sendable(sends[i])
  {
    if sends == [] then []
    else
      var n := |sends| - 1;
      assert Sendable(sends[n]);
      SentAll(packetId, sends[..n]) + Sent(packetId, sends[n].sequence, sends[n].message, sends[n].size)
  }

  function Expected(sends: seq<Send>): seq<Bytes> {
    if sends == [] then []
    else
      var n := |sends| - 1;
      if Deliverable(sends[n]) then Expected(sends[..n]) + [sends[n].message] else Expected(sends[..n])
  }

  lemma {:induction false} AllDelivered(packetId: nat, sends: seq<Send>, pending: Option<Pending>)
    requires forall i | 0 <= i < |sends| :: Sendable(sends[i])
    ensures Delivered(pending, SentAll(packetId, sends)) == Expected(sends)
  {
    if sends != [] {
      var n := |sends| - 1;
      assert Sendable(sends[n]);
      var before := SentAll(packetId, sends[..n]);
      AllDelivered(packetId, sends[..n], pending);
      MessageDelivered(packetId, sends[n], Unfinished(pending, before));
      UnfinishedConcat(pending, before, Sent(packetId, sends[n].sequence, sends[n].message, sends[n].size));
      DeliveredConcat(pending, before, Sent(packetId, sends[n].sequence, sends[n].message, sends[n].size));
    }
  }

  /** However streams are interleaved and whatever was pending, a stream that carries sent messages
      yields exactly those, in order, that are undivided or at most 2^20 bytes long. */
  lemma {:induction false} InterleavedDelivery(tables: seq<Table>, inputs: seq<Input>, flow: nat, packetId: nat,
                                               sends: seq<Send>)
    requires Run(tables, inputs) && forall i | 0 <= i < |sends| :: Sendable(sends[i])
    requires Stream(inputs, (flow, packetId)) == SentAll(packetId, sends)
    ensures DeliveredOn(tables, inputs, (flow, packetId)) == Expected(sends)
  {
    StreamsAreIndependent(tables, inputs, (flow, packetId));
    AllDelivered(packetId, sends, Lookup(tables[0], (flow, packetId)));
  }

  /** The sender's packets survive printing and parsing. */
  lemma {:induction false} SentParses(packetId: nat, sequence: nat, rest: Bytes, size: nat, i: nat)
    requires packetId < 0x1_0000 && sequence < 0x1_0000_0000 && size > 0
    ensures var ps := RestPackets(packetId, sequence, rest, size);
            i < |ps| ==> ParsePacket(PrintPacket(ps[i])) == Some(ps[i])
    decreases |rest|
  {
    var ps := RestPackets(packetId, sequence, rest, size);
    if i == 0 { PacketRoundTrip(ps[0]); }
    else if i < |ps| { SentParses(packetId, NextSequence(sequence), rest[size..], size, i - 1); }
  }

  lemma MessageParses(packetId: nat, s: Send, i: nat)
    requires packetId < 0x1_0000 && Sendable(s)
    ensures var ps := Sent(packetId, s.sequence, s.message, s.size);
            i < |ps| ==> ParsePacket(PrintPacket(ps[i])) == Some(ps[i])
  {
    var ps := Sent(packetId, s.sequence, s.message, s.size);
    if i == 0 { PacketRoundTrip(ps[0]); }
    else if i < |ps| { SentParses(packetId, NextSequence(s.sequence), s.message[s.size..], s.size, i - 1); }
  }

  // ------------------------------------------------------- nothing else is joined

  /** A signaling fragment of the given kind. */
  predicate IsFragment(p: Packet, kind: nat) {
    p.payloadType == SIGNALING && var s := ParseSignaling(p.payload); s.Some? && s.value.fragment == kind
  }

  function FragmentData(p: Packet): Bytes {
    var s := ParseSignaling(p.payload);
    if s.None? then [] else s.value.data
  }

  /** The packets at `at` are a first fragment and middle ones with consecutive numbers. */
  ghost predicate Chain(ps: seq<Packet>, at: seq<nat>) {
    && at != [] && (forall j | 0 <= j < |at| :: at[j] < |ps|) && (forall j | 0 < j < |at| :: Linked(ps, at, j))
    && IsFragment(ps[at[0]], FIRST)
  }

  ghost predicate Linked(ps: seq<Packet>, at: seq<nat>, j: nat) {
    0 < j < |at| && at[j - 1] < at[j] < |ps| && IsFragment(ps[at[j]], MIDDLE)
    && ps[at[j]].sequence == NextSequence(ps[at[j - 1]].sequence)
  }

  function Gathered(ps: seq<Packet>, at: seq<nat>): Bytes
    requires forall j | 0 <= j < |at| :: at[j] < |ps|
  {
    if at == [] then [] else Gathered(ps, at[..|at| - 1]) + FragmentData(ps[at[|at| - 1]])
  }

  /** Which packets make up the unfinished message of a stream that began with none. */
  function Trail(ps: seq<Packet>): (at: seq<nat>) {
    if ps == [] then []
    else
      var n := |ps| - 1;
      var s := ParseSignaling(ps[n].payload);
      if ps[n].payloadType != SIGNALING || s.None? then Trail(ps[..n])
      else if s.value.fragment == FIRST then [n]
      else if s.value.fragment == MIDDLE && Follows(Unfinished(None, ps[..n]), ps[n].sequence, s.value.data)
      then Trail(ps[..n]) + [n]
      else []
  }

  lemma {:induction false} GatheredSame(ps: seq<Packet>, ps': seq<Packet>, at: seq<nat>)
    requires |ps| <= |ps'| && ps'[..|ps|] == ps && forall j | 0 <= j < |at| :: at[j] < |ps|
    ensures Gathered(ps, at) == Gathered(ps', at)
  {
    if at != [] {
      GatheredSame(ps, ps', at[..|at| - 1]);
      assert ps'[..|ps|][at[|at| - 1]] == ps[at[|at| - 1]];
    }
  }

  /** What is pending is what the trail gathered. */
  ghost predicate Explained(ps: seq<Packet>, at: seq<nat>, pending: Option<Pending>) {
    pending.Some? ==>
      && Chain(ps, at) && pending.value.data == Gathered(ps, at)
      && pending.value.sequence == ps[at[|at| - 1]].sequence
  }

  lemma ExplainedLater(ps: seq<Packet>, at: seq<nat>, pending: Option<Pending>, p: Packet)
    requires Explained(ps, at, pending)
    ensures Explained(ps + [p], at, pending)
  {
    if pending.Some? {
      assert (ps + [p])[..|ps|] == ps;
      GatheredSame(ps, ps + [p], at);
      forall j | 0 < j < |at| ensures Linked(ps + [p], at, j) { assert Linked(ps, at, j); }
    }
  }

  lemma ExplainedMore(ps: seq<Packet>, at: seq<nat>, pending: Option<Pending>, p: Packet)
    requires Explained(ps, at, pending) && IsFragment(p, MIDDLE) && Follows(pending, p.sequence, FragmentData(p))
    ensures Explained(ps + [p], at + [|ps|], NextPending(pending, p))
  {
    ExplainedLater(ps, at, pending, p);
    var ps', at' := ps + [p], at + [|ps|];
    assert at'[..|at|] == at;
    forall j | 0 < j < |at'| ensures Linked(ps', at', j) { if j < |at| { assert Linked(ps', at, j); } }
  }

  lemma {:induction false} PendingExplained(ps: seq<Packet>)
    ensures Explained(ps, Trail(ps), Unfinished(None, ps))
  {
    if ps != [] {
      var n := |ps| - 1;
      var before, p := ps[..n], ps[n];
      assert ps == before + [p];
      PendingExplained(before);
      ExplainedLater(before, Trail(before), Unfinished(None, before), p);
      if IsFragment(p, MIDDLE) && Follows(Unfinished(None, before), p.sequence, FragmentData(p)) {
        ExplainedMore(before, Trail(before), Unfinished(None, before), p);
      } else if IsFragment(p, FIRST) {
        assert [n][..0] == [];
      }
    }
  }

  /** The signaling payload a last fragment completes. */
  function JoinedPayload(p: Packet, before: Bytes): Signaling
    requires IsFragment(p, LAST)
  {
    ParseSignaling(p.payload).value.(fragment := COMPLETE, data := before + FragmentData(p))
  }

  lemma JoinedFrom(pending: Option<Pending>, p: Packet)
    requires IsFragment(p, LAST) && ReplyTo(pending, p) != Some([])
    ensures Follows(pending, p.sequence, FragmentData(p))
    ensures ReplyTo(pending, p) == MessagesOf(JoinedPayload(p, pending.value.data))
  {}

  /** A last fragment that completes anything completes a chain of fragments of its stream: one
      first, then middle ones, then itself, with consecutive numbers, joined in that order. */
  lemma JoinedIsChain(ps: seq<Packet>, p: Packet)
    requires IsFragment(p, LAST) && ReplyTo(Unfinished(None, ps), p) != Some([])
    ensures var at := Trail(ps);
            && Chain(ps, at)
            && p.sequence == NextSequence(ps[at[|at| - 1]].sequence)
            && |Gathered(ps, at) + FragmentData(p)| <= MAX_MESSAGE
            && ReplyTo(Unfinished(None, ps), p) == MessagesOf(JoinedPayload(p, Gathered(ps, at)))
  {
    PendingExplained(ps);
    JoinedFrom(Unfinished(None, ps), p);
  }

  /** So it is in every run, whatever is fed in between: what is joined are fragments of one stream. */
  lemma JoinedInEveryRun(tables: seq<Table>, inputs: seq<Input>, n: nat)
    requires Run(tables, inputs) && tables[0] == map[] && n < |inputs| && IsFragment(inputs[n].packet, LAST)
    requires ReplyTo(Lookup(tables[n], inputs[n].Key()), inputs[n].packet) != Some([])
    ensures var ps := Stream(inputs[..n], inputs[n].Key());
            var at := Trail(ps);
            && Chain(ps, at)
            && inputs[n].packet.sequence == NextSequence(ps[at[|at| - 1]].sequence)
            && |Gathered(ps, at) + FragmentData(inputs[n].packet)| <= MAX_MESSAGE
            && ReplyTo(Lookup(tables[n], inputs[n].Key()), inputs[n].packet)
               == MessagesOf(JoinedPayload(inputs[n].packet, Gathered(ps, at)))
  {
    var k := inputs[n].Key();
    forall i | 0 <= i < n ensures Fed(tables[..n + 1][i], tables[..n + 1][i + 1], inputs[..n][i]) {
      assert Fed(tables[i], tables[i + 1], inputs[i]);
    }
    StreamsAreIndependent(tables[..n + 1], inputs[..n], k);
    JoinedIsChain(Stream(inputs[..n], k), inputs[n].packet);
  }
}
