/** MMTP packets and signaling payloads: the parsers of mmt/mmtp.go and the printers of mmt/mmttest. */
module MmtPacket {
  import opened Basics

  type Bytes = seq<Byte>

  datatype Extension = Extension(kind: nat, data: Bytes)

  datatype Packet = Packet(
    version: nat,
    fecType: nat,
    rap: bool,
    payloadType: nat,
    packetId: nat,
    timestamp: nat,
    sequence: nat,
    counter: Option<nat>,
    extension: Option<Extension>,
    payload: Bytes)

  const SIGNALING := 2

  // ---------------------------------------------------------------- numbers

  function Be16(n: nat): (r: Bytes)
    ensures |r| == 2
  {
    [n / 0x100 % 0x100, n % 0x100]
  }

  function Be32(n: nat): (r: Bytes)
    ensures |r| == 4
  {
    Be16(n / 0x1_0000) + Be16(n % 0x1_0000)
  }

  function Read16(b: Bytes): (n: nat)
    requires |b| >= 2
    ensures n < 0x1_0000
  {
    (b[0] as int) * 0x100 + b[1]
  }

  function Read32(b: Bytes): (n: nat)
    requires |b| >= 4
    ensures n < 0x1_0000_0000
  {
    Read16(b) * 0x1_0000 + Read16(b[2..])
  }

  /** Two bytes hold a number modulo 2^16. */
  lemma Be16Reads(n: nat, rest: Bytes)
    ensures Read16(Be16(n) + rest) == n % 0x1_0000
  {
    var h := n / 0x100;
    assert n == h * 0x100 + n % 0x100;
    assert h == (h / 0x100) * 0x100 + h % 0x100;
    assert n == (h / 0x100) * 0x1_0000 + ((h % 0x100) * 0x100 + n % 0x100);
  }

  lemma Be32Reads(n: nat, rest: Bytes)
    requires n < 0x1_0000_0000
    ensures Read32(Be32(n) + rest) == n
  {
    var hi, lo := n / 0x1_0000, n % 0x1_0000;
    Be16Reads(hi, Be16(lo) + rest);
    Be16Reads(lo, rest);
    assert Be32(n) + rest == Be16(hi) + (Be16(lo) + rest);
    assert (Be32(n) + rest)[2..] == Be16(lo) + rest;
  }

  // ---------------------------------------------------------------- packets

  function ParseExtension(b: Bytes): Option<(Extension, Bytes)> {
    if |b| < 4 then None
    else
      var length := Read16(b[2..]);
      if |b| < 4 + length then None else Some((Extension(Read16(b), b[4..4 + length]), b[4 + length..]))
  }

  function ParsePacket(b: Bytes): Option<Packet> {
    if |b| < 12 then None
    else
      var counted := b[0] / 0x20 % 2 == 1;
      if counted && |b| < 16 then None
      else
        var counter := if counted then Some(Read32(b[12..])) else None;
        var rest := if counted then b[16..] else b[12..];
        var p := Packet(b[0] / 0x40, b[0] / 8 % 4, b[0] % 2 == 1, b[1] % 0x40, Read16(b[2..]),
                        Read32(b[4..]), Read32(b[8..]), counter, None, rest);
        if b[0] / 2 % 2 == 0 then Some(p)
        else
          var ext := ParseExtension(rest);
          if ext.None? then None else Some(p.(extension := Some(ext.value.0), payload := ext.value.1))
  }

  function Flags(p: Packet): Byte {
    (if p.counter.Some? then 0x20 else 0) + (if p.extension.Some? then 2 else 0) + (if p.rap then 1 else 0)
  }

  function PrintExtension(e: Extension): Bytes { Be16(e.kind) + (Be16(|e.data|) + e.data) }

  /** What follows the twelve fixed bytes. */
  function PrintRest(p: Packet): Bytes {
    (if p.counter.Some? then Be32(p.counter.value) else [])
    + ((if p.extension.Some? then PrintExtension(p.extension.value) else []) + p.payload)
  }

  function PrintPacket(p: Packet): Bytes {
    [Flags(p), p.payloadType % 0x40] + (Be16(p.packetId) + (Be32(p.timestamp) + (Be32(p.sequence) + PrintRest(p))))
  }

  /** The numbers fit their fields; version and FEC type are not printed. */
  predicate Printable(p: Packet) {
    && p.version == 0 && p.fecType == 0 && p.payloadType < 0x40 && p.packetId < 0x1_0000
    && p.timestamp < 0x1_0000_0000 && p.sequence < 0x1_0000_0000
    && (p.counter.Some? ==> p.counter.value < 0x1_0000_0000)
    && (p.extension.Some? ==> p.extension.value.kind < 0x1_0000)
  }

  lemma FixedFields(p: Packet)
    requires Printable(p)
    ensures var b := PrintPacket(p);
            |b| >= 12 && b[0] == Flags(p) && b[1] == p.payloadType
            && Read16(b[2..]) == p.packetId && Read32(b[4..]) == p.timestamp && Read32(b[8..]) == p.sequence
            && b[12..] == PrintRest(p)
  {
    var b := PrintPacket(p);
    var t3 := Be32(p.sequence) + PrintRest(p);
    var t2 := Be32(p.timestamp) + t3;
    var t1 := Be16(p.packetId) + t2;
    assert b[2..] == t1;
    assert b[4..] == t1[2..] == t2;
    assert b[8..] == t2[4..] == t3;
    assert b[12..] == t3[4..] == PrintRest(p);
    Be16Reads(p.packetId, t2);
    Be32Reads(p.timestamp, t3);
    Be32Reads(p.sequence, PrintRest(p));
  }

  lemma ExtensionReads(e: Extension, payload: Bytes)
    requires e.kind < 0x1_0000
    ensures var n := |e.data| % 0x1_0000;
            ParseExtension(PrintExtension(e) + payload) == Some((Extension(e.kind, e.data[..n]), e.data[n..] + payload))
  {
    var n := |e.data| % 0x1_0000;
    var b := PrintExtension(e) + payload;
    assert b == Be16(e.kind) + (Be16(|e.data|) + e.data + payload);
    assert b[2..] == Be16(|e.data|) + (e.data + payload);
    Be16Reads(e.kind, Be16(|e.data|) + e.data + payload);
    Be16Reads(|e.data|, e.data + payload);
    assert b[4..] == e.data + payload;
    assert b[4..4 + n] == b[4..][..n] == e.data[..n];
    assert b[4 + n..] == b[4..][n..] == e.data[n..] + payload;
  }

  lemma FlagsRead(p: Packet)
    ensures var f := Flags(p);
            f / 0x40 == 0 && f / 8 % 4 == 0 && (f / 0x20 % 2 == 1 <==> p.counter.Some?)
            && (f / 2 % 2 == 0 <==> p.extension.None?) && (f % 2 == 1 <==> p.rap)
  {}

  /** The packet as it is received: the extension's length is kept modulo 2^16. */
  function Received(p: Packet): Packet {
    if p.extension.None? then p
    else
      var data := p.extension.value.data;
      var n := |data| % 0x1_0000;
      p.(extension := Some(Extension(p.extension.value.kind, data[..n])), payload := data[n..] + p.payload)
  }

  lemma PrintedParses(p: Packet)
    requires Printable(p)
    ensures ParsePacket(PrintPacket(p)) == Some(Received(p))
  {
    var b := PrintPacket(p);
    FixedFields(p);
    FlagsRead(p);
    var tail := (if p.extension.Some? then PrintExtension(p.extension.value) else []) + p.payload;
    if p.counter.Some? {
      Be32Reads(p.counter.value, tail);
      assert b[12..] == Be32(p.counter.value) + tail;
      assert b[16..] == b[12..][4..] == tail;
    } else {
      assert b[12..] == tail;
    }
    if p.extension.Some? { ExtensionReads(p.extension.value, p.payload); } else { assert tail == p.payload; }
  }

  lemma ReceivedWhole(p: Packet)
    ensures Received(p) == p <==> p.extension.None? || |p.extension.value.data| < 0x1_0000
  {
    if p.extension.Some? {
      var data := p.extension.value.data;
      var n := |data| % 0x1_0000;
      assert data[..|data|] == data && data[|data|..] + p.payload == p.payload;
      assert |data| >= 0x1_0000 ==> |data[..n]| < |data|;
    }
  }

  /** A packet survives printing and parsing exactly when its extension is shorter than 2^16 bytes. */
  lemma PacketRoundTrip(p: Packet)
    requires Printable(p)
    ensures ParsePacket(PrintPacket(p)) == Some(p) <==> p.extension.None? || |p.extension.value.data| < 0x1_0000
  {
    PrintedParses(p);
    ReceivedWhole(p);
  }
}
