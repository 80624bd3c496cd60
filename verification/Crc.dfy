/** The CRC-32 of MPEG-2 sections: table-driven in ts/section.go, bit-serial in mmt/mmttest. */
module Crc {
  type Bytes = seq<bv8>

  function Shift(x: bv32): bv32 {
    if x & 0x8000_0000 != 0 then (x << 1) ^ 0x04c1_1db7 else x << 1
  }

  function Iterate<W>(f: W -> W, x: W, n: nat): W
    decreases n, x
  {
    if n == 0 then x else f(Iterate(f, x, n - 1))
  }

  /** A byte enters at the top, then eight shifts. */
  function SerialStep(crc: bv32, b: bv8): bv32 { Iterate(Shift, crc ^ ((b as bv32) << 24), 8) }

  function TableEntry(i: bv8): bv32 { Iterate(Shift, (i as bv32) << 24, 8) }

  function Top(x: bv32): bv8 { (x >> 24) as bv8 }

  /** One lookup per byte. */
  function TableStep(crc: bv32, b: bv8): bv32 { (crc << 8) ^ TableEntry(Top(crc) ^ b) }

  function Fold(step: (bv32, bv8) -> bv32, crc: bv32, data: Bytes): bv32 {
    if data == [] then crc else step(Fold(step, crc, data[..|data| - 1]), data[|data| - 1])
  }

  function SerialCrc(data: Bytes): bv32 { Fold(SerialStep, 0xffff_ffff, data) }

  function TableCrc(data: Bytes): bv32 { Fold(TableStep, 0xffff_ffff, data) }

  // -------------------------------------------------------------- linearity

  // The lemmas about words state their conditions as implications, which keeps each bit-level
  // question on its own.

  lemma ShlXor(x: bv32, y: bv32)
    ensures (x ^ y) << 1 == (x << 1) ^ (y << 1)
  {}

  lemma TopXor(x: bv32, y: bv32)
    ensures (x ^ y) & 0x8000_0000 != 0 <==> (x & 0x8000_0000 != 0) != (y & 0x8000_0000 != 0)
  {}

  lemma ShiftLow(x: bv32)
    ensures x & 0x8000_0000 == 0 ==> Shift(x) == x << 1
  {}

  lemma ShiftNone(x: bv32, y: bv32)
    ensures x & 0x8000_0000 == 0 && y & 0x8000_0000 == 0 ==> Shift(x ^ y) == Shift(x) ^ Shift(y)
  {
    ShiftLow(x);
    ShiftLow(y);
    TopXor(x, y);
    ShiftLow(x ^ y);
    ShlXor(x, y);
  }

  lemma ShiftOne(x: bv32, y: bv32)
    ensures x & 0x8000_0000 != 0 && y & 0x8000_0000 == 0 ==> Shift(x ^ y) == Shift(x) ^ Shift(y)
  {}

  lemma ShiftOther(x: bv32, y: bv32)
    ensures x & 0x8000_0000 == 0 && y & 0x8000_0000 != 0 ==> Shift(x ^ y) == Shift(x) ^ Shift(y)
  {}

  lemma ShiftBoth(x: bv32, y: bv32)
    ensures x & 0x8000_0000 != 0 && y & 0x8000_0000 != 0 ==> Shift(x ^ y) == Shift(x) ^ Shift(y)
  {}

  lemma ShiftXor(x: bv32, y: bv32)
    ensures Shift(Xor(x, y)) == Xor(Shift(x), Shift(y))
  {
    if x & 0x8000_0000 != 0 {
      if y & 0x8000_0000 != 0 { ShiftBoth(x, y); } else { ShiftOne(x, y); }
    } else {
      if y & 0x8000_0000 != 0 { ShiftOther(x, y); } else { ShiftNone(x, y); }
    }
  }

  function Xor(x: bv32, y: bv32): bv32 { x ^ y }

  ghost predicate Linear<W(!new)>(f: W -> W, xor: (W, W) -> W) { forall x, y :: f(xor(x, y)) == xor(f(x), f(y)) }

  lemma ShiftLinear()
    ensures Linear(Shift, Xor)
  {
    forall x, y ensures Shift(Xor(x, y)) == Xor(Shift(x), Shift(y)) { ShiftXor(x, y); }
  }

  lemma {:induction false} IterateLinear<W(!new)>(f: W -> W, xor: (W, W) -> W, x: W, y: W, n: nat)
    ensures Linear(f, xor) ==> Iterate(f, xor(x, y), n) == xor(Iterate(f, x, n), Iterate(f, y, n))
  {
    if n > 0 { IterateLinear(f, xor, x, y, n - 1); }
  }

  lemma EightSteps<W>(f: W -> W, x: W, x1: W, x2: W, x3: W, x4: W, x5: W, x6: W, x7: W, x8: W)
    ensures f(x) == x1 && f(x1) == x2 && f(x2) == x3 && f(x3) == x4 && f(x4) == x5 && f(x5) == x6 && f(x6) == x7
            && f(x7) == x8
            ==> Iterate(f, x, 8) == x8
  {
    assert Iterate(f, x, 1) == f(x) && Iterate(f, x, 2) == f(f(x)) && Iterate(f, x, 3) == f(f(f(x)));
    assert Iterate(f, x, 4) == f(Iterate(f, x, 3)) && Iterate(f, x, 5) == f(Iterate(f, x, 4));
    assert Iterate(f, x, 6) == f(Iterate(f, x, 5)) && Iterate(f, x, 7) == f(Iterate(f, x, 6));
  }

  lemma ShiftByShift(x: bv32)
    ensures x & 0xff00_0000 == 0 ==>
              && Shift(x) == x << 1 && Shift(x << 1) == x << 2 && Shift(x << 2) == x << 3 && Shift(x << 3) == x << 4
              && Shift(x << 4) == x << 5 && Shift(x << 5) == x << 6 && Shift(x << 6) == x << 7
                   && Shift(x << 7) == x << 8
  {}

  /** With nothing in the top eight bits, eight shifts only move the rest up. */
  lemma LowBitsMoveUp(x: bv32)
    ensures x & 0xff00_0000 == 0 ==> Iterate(Shift, x, 8) == x << 8
  {
    ShiftByShift(x);
    EightSteps(Shift, x, x << 1, x << 2, x << 3, x << 4, x << 5, x << 6, x << 7, x << 8);
  }

  lemma SplitTop(crc: bv32, b: bv8)
    ensures crc ^ ((b as bv32) << 24) == Xor(((Top(crc) ^ b) as bv32) << 24, crc & 0x00ff_ffff)
    ensures (crc & 0x00ff_ffff) & 0xff00_0000 == 0 && (crc & 0x00ff_ffff) << 8 == crc << 8
  {}

  lemma XorSwap(x: bv32, y: bv32)
    ensures Xor(x, y) == y ^ x
  {}

  /** One byte does the same to both forms. */
  lemma StepsAgree(crc: bv32, b: bv8)
    ensures SerialStep(crc, b) == TableStep(crc, b)
  {
    SplitTop(crc, b);
    ShiftLinear();
    IterateLinear(Shift, Xor, ((Top(crc) ^ b) as bv32) << 24, crc & 0x00ff_ffff, 8);
    LowBitsMoveUp(crc & 0x00ff_ffff);
    XorSwap(TableEntry(Top(crc) ^ b), crc << 8);
  }

  lemma {:induction false} FoldsAgree(f: (bv32, bv8) -> bv32, g: (bv32, bv8) -> bv32, crc: bv32, data: Bytes)
    requires forall c, b :: f(c, b) == g(c, b)
    ensures Fold(f, crc, data) == Fold(g, crc, data)
  {
    if data != [] { FoldsAgree(f, g, crc, data[..|data| - 1]); }
  }

  /** The two forms agree on every byte string. */
  lemma FormsAgree(data: Bytes)
    ensures TableCrc(data) == SerialCrc(data)
  {
    forall c, b ensures TableStep(c, b) == SerialStep(c, b) { StepsAgree(c, b); }
    FoldsAgree(TableStep, SerialStep, 0xffff_ffff, data);
  }

  // ---------------------------------------------------------------- checking

  function Be32(x: bv32): Bytes {
    [Top(x), Top(x << 8), Top(x << 16), Top(x << 24)]
  }

  lemma ZeroEntry()
    ensures TableEntry(0) == 0
  {}

  lemma SameByteCancels(crc: bv32)
    ensures TableStep(crc, Top(crc)) == crc << 8
  {
    ZeroEntry();
    XorItself(Top(crc));
    XorZero(crc << 8, TableEntry(0));
  }

  lemma XorItself(b: bv8)
    ensures b ^ b == 0
  {}

  lemma XorZero(x: bv32, z: bv32)
    ensures z == 0 ==> x ^ z == x
  {}

  lemma FoldOne(step: (bv32, bv8) -> bv32, crc: bv32, data: Bytes, b: bv8)
    ensures Fold(step, crc, data + [b]) == step(Fold(step, crc, data), b)
  {}

  lemma ShiftTwice(x: bv32)
    ensures (x << 8) << 8 == x << 16 && (x << 16) << 8 == x << 24 && (x << 24) << 8 == 0
  {}

  /** From any state, data followed by the state it leads to leaves nothing over. */
  lemma AppendedClears(start: bv32, data: Bytes)
    ensures Fold(TableStep, start, data + Be32(Fold(TableStep, start, data))) == 0
  {
    var x := Fold(TableStep, start, data);
    var d1 := data + [Top(x)];
    var d2 := d1 + [Top(x << 8)];
    var d3 := d2 + [Top(x << 16)];
    assert data + Be32(x) == d3 + [Top(x << 24)];
    FoldOne(TableStep, start, data, Top(x));
    FoldOne(TableStep, start, d1, Top(x << 8));
    FoldOne(TableStep, start, d2, Top(x << 16));
    FoldOne(TableStep, start, d3, Top(x << 24));
    SameByteCancels(x);
    SameByteCancels(x << 8);
    SameByteCancels(x << 16);
    SameByteCancels(x << 24);
    ShiftTwice(x);
  }

  /** Data with its CRC appended leaves nothing over. */
  lemma AppendedValidates(data: Bytes)
    ensures TableCrc(data + Be32(TableCrc(data))) == 0
  {
    AppendedClears(0xffff_ffff, data);
  }

  lemma {:induction false} FoldConcat(step: (bv32, bv8) -> bv32, crc: bv32, a: Bytes, b: Bytes)
    ensures Fold(step, crc, a + b) == Fold(step, Fold(step, crc, a), b)
  {
    if b == [] {
      assert a + b == a;
    } else {
      var n := |b| - 1;
      assert a + b == (a + b[..n]) + [b[n]];
      FoldConcat(step, crc, a, b[..n]);
      FoldOne(step, crc, a + b[..n], b[n]);
    }
  }

  /** Zero bytes leave a clear state clear. */
  lemma {:induction false} ZerosStayClear(data: Bytes)
    requires forall i | 0 <= i < |data| :: data[i] == 0
    ensures Fold(TableStep, 0, data) == 0
  {
    if data != [] {
      ZerosStayClear(data[..|data| - 1]);
      ZeroStep();
    }
  }

  lemma ZeroStep()
    ensures TableStep(0, 0) == 0
  {
    SameByteCancels(0);
    ZeroTop();
  }

  lemma ZeroTop()
    ensures Top(0) == 0 && (0 as bv32) << 8 == 0
  {}

  // ------------------------------------------------------------------ the loops

  ghost predicate Filled(table: array<bv32>)
    reads table
  {
    table.Length == 256 && forall i: nat | i < 256 :: table[i] == TableEntry(i as bv8)
  }

  method MakeTable() returns (table: array<bv32>)
    ensures fresh(table) && Filled(table)
  {
    table := new bv32[256];
    for i := 0 to 256
      invariant forall j: nat | j < i :: table[j] == TableEntry(j as bv8)
    {
      var crc := ShiftEight(((i as bv8) as bv32) << 24);
      table[i] := crc;
    }
  }

  lemma IterateNext<W>(f: W -> W, x: W, n: nat)
    ensures Iterate(f, x, n + 1) == f(Iterate(f, x, n))
  {}

  method ShiftOnce(x: bv32) returns (r: bv32)
    ensures r == Shift(x)
  {
    if x & 0x8000_0000 != 0 { r := (x << 1) ^ 0x04c1_1db7; } else { r := x << 1; }
  }

  method ShiftEight(start: bv32) returns (crc: bv32)
    ensures crc == Iterate(Shift, start, 8)
  {
    crc := start;
    for j := 0 to 8
      invariant crc == Iterate(Shift, start, j)
    {
      IterateNext(Shift, start, j);
      crc := ShiftOnce(crc);
    }
  }

  lemma ByteIndex(b: bv8)
    ensures 0 <= b as int < 256 && (b as int) as bv8 == b
  {}

  method Entry(table: array<bv32>, b: bv8) returns (e: bv32)
    requires Filled(table)
    ensures e == TableEntry(b)
  {
    ByteIndex(b);
    e := table[b as int];
  }

  method TableByte(table: array<bv32>, crc: bv32, b: bv8) returns (r: bv32)
    requires Filled(table)
    ensures r == TableStep(crc, b)
  {
    var e := Entry(table, Top(crc) ^ b);
    r := Combine(crc, b, e);
  }

  method Combine(crc: bv32, b: bv8, e: bv32) returns (r: bv32)
    ensures e == TableEntry(Top(crc) ^ b) ==> r == TableStep(crc, b)
  {
    r := (crc << 8) ^ e;
  }

  method SerialByte(crc: bv32, b: bv8) returns (r: bv32)
    ensures r == SerialStep(crc, b)
  {
    r := ShiftEight(crc ^ ((b as bv32) << 24));
  }

  lemma FoldNext(step: (bv32, bv8) -> bv32, crc: bv32, data: Bytes, i: nat, c: bv32, c': bv32)
    ensures i < |data| && c == Fold(step, crc, data[..i]) && c' == step(c, data[i]) ==>
              c' == Fold(step, crc, data[..i + 1])
  {
    if i < |data| {
      assert data[..i + 1] == data[..i] + [data[i]];
      FoldOne(step, crc, data[..i], data[i]);
    }
  }

  /** The table-driven loop of the receiver. */
  method Crc32(table: array<bv32>, data: Bytes) returns (crc: bv32)
    requires Filled(table)
    ensures crc == TableCrc(data)
  {
    crc := 0xffff_ffff;
    for i := 0 to |data|
      invariant crc == Fold(TableStep, 0xffff_ffff, data[..i])
    {
      var next := TableByte(table, crc, data[i]);
      FoldNext(TableStep, 0xffff_ffff, data, i, crc, next);
      crc := next;
    }
    assert data[..|data|] == data;
  }

  method SerialCrc32(data: Bytes) returns (crc: bv32)
    ensures crc == SerialCrc(data)
  {
    crc := 0xffff_ffff;
    for i := 0 to |data|
      invariant crc == Fold(SerialStep, 0xffff_ffff, data[..i])
    {
      var next := SerialByte(crc, data[i]);
      FoldNext(SerialStep, 0xffff_ffff, data, i, crc, next);
      crc := next;
    }
    assert data[..|data|] == data;
  }

  /** The test encoder appends the bit-serial CRC, and the receiver's check finds nothing over. */
  method AppendCrc(data: Bytes) returns (r: Bytes)
    ensures r == data + Be32(SerialCrc(data)) && TableCrc(r) == 0
  {
    var crc := SerialCrc32(data);
    r := data + Be32(crc);
    FormsAgree(data);
    AppendedValidates(data);
  }
}
