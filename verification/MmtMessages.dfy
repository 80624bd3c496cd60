/** Signaling payloads: splitting an aggregate, and dividing a message into packets (mmt/mmtp.go, mmt/mmttest). */
module MmtMessages {
  import opened Basics
  import opened MmtPacket

  const COMPLETE := 0
  const FIRST := 1
  const MIDDLE := 2
  const LAST := 3

  datatype Signaling = Signaling(fragment: nat, longLengths: bool, aggregated: bool, counter: nat, data: Bytes)

  function ParseSignaling(b: Bytes): Option<Signaling> {
    if |b| < 2 then None
    else Some(Signaling(b[0] / 0x40, b[0] / 2 % 2 == 1, b[0] % 2 == 1, b[1], b[2..]))
  }

  function PrintSignaling(fragment: nat, counter: nat, data: Bytes): Bytes
    requires fragment < 4
  {
    [fragment * 0x40, counter % 0x100] + data
  }

  lemma SignalingReads(fragment: nat, counter: nat, data: Bytes)
    requires fragment < 4
    ensures ParseSignaling(PrintSignaling(fragment, counter, data))
            == Some(Signaling(fragment, false, false, counter % 0x100, data))
  {}

  // ------------------------------------------------------------------ aggregates

  /** The messages of an aggregate, each after its length; None if it does not split evenly. */
  function Split(b: Bytes, long: bool): Option<seq<Bytes>>
    decreases |b|
  {
    if b == [] then Some([])
    else if |b| < LengthSize(long) then None
    else
      var length, rest := ReadLength(b, long), b[LengthSize(long)..];
      if length > |rest| then None
      else
        var more := Split(rest[length..], long);
        if more.None? then None else Some([rest[..length]] + more.value)
  }

  function LengthSize(long: bool): nat { if long then 4 else 2 }

  function ReadLength(b: Bytes, long: bool): nat
    requires |b| >= LengthSize(long)
  {
    if long then Read32(b) else Read16(b)
  }

  function MessagesOf(s: Signaling): Option<seq<Bytes>> {
    if s.fragment != COMPLETE then Some([])
    else if !s.aggregated then Some([s.data])
    else Split(s.data, s.longLengths)
  }

  method Messages(s: Signaling) returns (messages: Option<seq<Bytes>>)
    ensures messages == MessagesOf(s)
  {
    if s.fragment != COMPLETE { return Some([]); }
    if !s.aggregated { return Some([s.data]); }
    var found: seq<Bytes>, b := [], s.data;
    ghost var whole := Split(b, s.longLengths);
    assert whole.Some? ==> [] + whole.value == whole.value;
    while b != []
      invariant Split(s.data, s.longLengths) == After(found, Split(b, s.longLengths))
      decreases |b|
    {
      if |b| < LengthSize(s.longLengths) { return None; }
      var length := ReadLength(b, s.longLengths);
      var rest := b[LengthSize(s.longLengths)..];
      if length > |rest| { return None; }
      var message := rest[..length];
      assert forall more: seq<Bytes> :: found + ([message] + more) == (found + [message]) + more;
      found := found + [message];
      b := rest[length..];
    }
    assert found + [] == found;
    return Some(found);
  }

  function After(found: seq<Bytes>, rest: Option<seq<Bytes>>): Option<seq<Bytes>> {
    if rest.None? then None else Some(found + rest.value)
  }

  function Join(messages: seq<Bytes>): Bytes {
    if messages == [] then [] else Be16(|messages[0]|) + (messages[0] + Join(messages[1..]))
  }

  function PrintAggregate(messages: seq<Bytes>): Bytes { [1, 0] + Join(messages) }

  lemma SplitOne(m: Bytes, rest: Bytes)
    requires |m| < 0x1_0000
    ensures Split(Be16(|m|) + (m + rest), false) == After([m], Split(rest, false))
  {
    var b := Be16(|m|) + (m + rest);
    assert Read16(b) == |m| by { Be16Reads(|m|, m + rest); }
    assert b[2..] == m + rest;
    assert (m + rest)[..|m|] == m && (m + rest)[|m|..] == rest;
  }

  lemma {:induction false} JoinSplits(messages: seq<Bytes>)
    requires forall i | 0 <= i < |messages| :: Short(messages[i])
    ensures Split(Join(messages), false) == Some(messages)
  {
    if messages != [] {
      SplitOne(messages[0], Join(messages[1..]));
      JoinSplits(messages[1..]);
      assert messages == [messages[0]] + messages[1..];
    }
  }

  lemma {:induction false} SplitIsShort(b: Bytes)
    ensures Split(b, false).Some? ==> forall i | 0 <= i < |Split(b, false).value| :: Short(Split(b, false).value[i])
    decreases |b|
  {
    if |b| >= 2 && Read16(b) <= |b| - 2 { SplitIsShort(b[2..][Read16(b)..]); }
  }

  predicate Short(m: Bytes) { |m| < 0x1_0000 }

  lemma {:induction false} JoinSplitsExactly(messages: seq<Bytes>)
    ensures Split(Join(messages), false) == Some(messages) <==> forall i | 0 <= i < |messages| :: Short(messages[i])
  {
    SplitIsShort(Join(messages));
    if forall i | 0 <= i < |messages| :: Short(messages[i]) { JoinSplits(messages); }
  }

  /** An aggregate gives its messages back exactly when each is shorter than 2^16 bytes. */
  lemma AggregateRoundTrip(messages: seq<Bytes>)
    ensures var s := ParseSignaling(PrintAggregate(messages));
            s.Some? && (MessagesOf(s.value) == Some(messages) <==> forall i | 0 <= i < |messages| :: Short(messages[i]))
  {
    var b := PrintAggregate(messages);
    assert b[0] == 1 && b[2..] == Join(messages);
    assert MessagesOf(ParseSignaling(b).value) == Split(Join(messages), false);
    JoinSplitsExactly(messages);
  }

  // ------------------------------------------------------------------- fragments

  function NextSequence(n: nat): nat { (n + 1) % 0x1_0000_0000 }

  function SequenceAt(sequence: nat, i: nat): nat { (sequence + i) % 0x1_0000_0000 }

  function SignalingPacket(packetId: nat, sequence: nat, payload: Bytes): Packet {
    Packet(0, 0, false, SIGNALING, packetId, 0, sequence, None, None, payload)
  }

  /** The packets that carry the rest of a divided message. */
  function RestPackets(packetId: nat, sequence: nat, rest: Bytes, size: nat): (r: seq<Packet>)
    requires size > 0
    ensures |r| > 0
    decreases |rest|
  {
    if |rest| <= size then [SignalingPacket(packetId, sequence, PrintSignaling(LAST, 0, rest))]
    else
      var more := RestPackets(packetId, NextSequence(sequence), rest[size..], size);
      [SignalingPacket(packetId, sequence, PrintSignaling(MIDDLE, |more|, rest[..size]))] + more
  }

  /** The packets that carry a message in fragments of at most `size` bytes. */
  function Sent(packetId: nat, sequence: nat, message: Bytes, size: nat): seq<Packet>
    requires |message| <= size || size > 0
  {
    if |message| <= size then [SignalingPacket(packetId, sequence, PrintSignaling(COMPLETE, 0, message))]
    else
      var more := RestPackets(packetId, NextSequence(sequence), message[size..], size);
      [SignalingPacket(packetId, sequence, PrintSignaling(FIRST, |more|, message[..size]))] + more
  }

  function Pieces(message: Bytes, size: nat): seq<Bytes>
    requires size > 0
    decreases |message|
  {
    if message == [] then []
    else if |message| <= size then [message]
    else [message[..size]] + Pieces(message[size..], size)
  }

  function Indicator(i: nat, n: nat): (r: nat)
    ensures r < 4
  {
    if i == 0 then FIRST else if i == n - 1 then LAST else MIDDLE
  }

  /** The loop's packet for piece `i` of `pieces`. */
  function PiecePacket(packetId: nat, sequence: nat, pieces: seq<Bytes>, i: nat): Packet
    requires i < |pieces|
  {
    SignalingPacket(packetId, SequenceAt(sequence, i),
        PrintSignaling(Indicator(i, |pieces|), |pieces| - 1 - i, pieces[i]))
  }

  lemma NumberOfNext(sequence: nat, i: nat)
    ensures NextSequence(SequenceAt(sequence, i)) == SequenceAt(sequence, i + 1)
  {}

  /** The rest of a message, divided, is numbered and marked as the later pieces of the whole. */
  lemma {:induction false} RestIsPieces(packetId: nat, sequence: nat, rest: Bytes, size: nat, before: seq<Bytes>,
                                        number: nat, i: nat)
    requires size > 0 && rest != [] && before != [] && i < |Pieces(rest, size)|
             && number == SequenceAt(sequence, |before|)
    ensures |RestPackets(packetId, number, rest, size)| == |Pieces(rest, size)|
    ensures RestPackets(packetId, number, rest, size)[i]
            == PiecePacket(packetId, sequence, before + Pieces(rest, size), |before| + i)
    decreases |rest|
  {
    if |rest| > size {
      var before', more := before + [rest[..size]], rest[size..];
      assert before' + Pieces(more, size) == before + Pieces(rest, size);
      NumberOfNext(sequence, |before|);
      RestIsPieces(packetId, sequence, more, size, before', NextSequence(number), if i == 0 then 0 else i - 1);
    }
  }

  lemma SentPiece(packetId: nat, sequence: nat, message: Bytes, size: nat, i: nat)
    requires 0 < size < |message| && sequence < 0x1_0000_0000 && i < |Pieces(message, size)|
    ensures var pieces := Pieces(message, size);
            var sent := Sent(packetId, sequence, message, size);
            |sent| == |pieces| >= 2 && sent[i] == PiecePacket(packetId, sequence, pieces, i)
  {
    var first, rest := message[..size], message[size..];
    var more := RestPackets(packetId, NextSequence(sequence), rest, size);
    assert Pieces(message, size) == [first] + Pieces(rest, size);
    RestIsPieces(packetId, sequence, rest, size, [first], NextSequence(sequence), if i == 0 then 0 else i - 1);
    if i > 0 { assert Sent(packetId, sequence, message, size)[i] == more[i - 1]; }
  }

  lemma {:induction false} SentIsPieces(packetId: nat, sequence: nat, message: Bytes, size: nat)
    requires 0 < size < |message| && sequence < 0x1_0000_0000
    ensures var pieces := Pieces(message, size);
            var sent := Sent(packetId, sequence, message, size);
            |sent| == |pieces| >= 2 && forall i | 0 <= i < |pieces| ::
                  sent[i] == PiecePacket(packetId, sequence, pieces, i)
  {
    SentPiece(packetId, sequence, message, size, 0);
    forall i | 0 <= i < |Pieces(message, size)|
      ensures Sent(packetId, sequence, message, size)[i] == PiecePacket(packetId, sequence, Pieces(message, size), i)
    {
      SentPiece(packetId, sequence, message, size, i);
    }
  }

  /** Divides a message into printed packets; `size` must be positive once the message is longer. */
  method SignalingPackets(packetId: nat, sequence: nat, message: Bytes, size: nat) returns (packets: seq<Bytes>)
    requires (|message| <= size || size > 0) && sequence < 0x1_0000_0000
    ensures var sent := Sent(packetId, sequence, message, size);
            |packets| == |sent| && forall i | 0 <= i < |sent| :: packets[i] == PrintPacket(sent[i])
  {
    if |message| <= size {
      return [PrintPacket(SignalingPacket(packetId, sequence, PrintSignaling(COMPLETE, 0, message)))];
    }
    SentIsPieces(packetId, sequence, message, size);
    var pieces := Divide(message, size);
    packets := [];
    for i := 0 to |pieces|
      invariant |packets| == i
      invariant forall j | 0 <= j < i :: packets[j] == PrintPacket(PiecePacket(packetId, sequence, pieces, j))
    {
      packets := packets + [PrintPacket(PiecePacket(packetId, sequence, pieces, i))];
    }
  }

  method Divide(message: Bytes, size: nat) returns (pieces: seq<Bytes>)
    requires size > 0
    ensures pieces == Pieces(message, size)
  {
    pieces := [];
    var b := message;
    while b != []
      invariant Pieces(message, size) == pieces + Pieces(b, size)
      decreases |b|
    {
      var n := if size < |b| then size else |b|;
      assert |b| <= size ==> b[..n] == b && b[n..] == [];
      assert pieces + ([b[..n]] + Pieces(b[n..], size)) == (pieces + [b[..n]]) + Pieces(b[n..], size);
      pieces := pieces + [b[..n]];
      b := b[n..];
    }
  }
}
