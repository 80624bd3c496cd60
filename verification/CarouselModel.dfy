/**
 Modules of a DSM-CC data carousel (ts/dsmcc_carousel.go): assembling one from its blocks,
 and adding up what all of them occupy.
 */
module CarouselModel {
  import opened Basics

  datatype Info = Info(id: nat, version: nat, size: nat)

  datatype Module = Module(
    info: Info,
    downloadId: nat,
    blockSize: nat,
    data: seq<Byte>,
    received: seq<bool>,
    count: nat,
    completed: bool,
    generation: nat)

  type Modules = map<nat, Module>

  const WORD := 0x1_0000_0000

  /** The number of blocks as 32-bit arithmetic gives it: the sum wraps. */
  function BlockCount(size: nat, blockSize: nat): nat
    requires blockSize > 0
  {
    ((size + blockSize - 1) % WORD) / blockSize
  }

  function Trues(flags: seq<bool>): nat {
    if flags == [] then 0 else Trues(flags[..|flags| - 1]) + (if flags[|flags| - 1] then 1 else 0)
  }

  function AllFalse(n: nat): seq<bool> { seq(n, i => false) }

  function Zeros(n: nat): seq<Byte> { seq(n, i => 0) }

  predicate ModuleOk(m: Module) {
    && 0 < m.info.size && m.blockSize > 0
    && (if m.completed then m.received == [] && (m.data == [] || |m.data| == m.info.size)
        else |m.data| == m.info.size && |m.received| == BlockCount(m.info.size, m.blockSize)
             && m.count == Trues(m.received) && (m.count < |m.received| || m.received == []))
  }

  function NewModule(info: Info, downloadId: nat, blockSize: nat, generation: nat): (m: Module)
    requires info.size > 0 && blockSize > 0
  {
    Module(info, downloadId, blockSize,
           Zeros(info.size), AllFalse(BlockCount(info.size, blockSize)), 0, false, generation)
  }

  function Overwrite(data: seq<Byte>, off: nat, block: seq<Byte>): (r: seq<Byte>)
    requires off <= |data|
    ensures |r| == |data|
  {
    var end := if off + |block| > |data| then |data| else off + |block|;
    data[..off] + block[..end - off] + data[end..]
  }

  /** Whether an incomplete module takes block `k` at all. */
  predicate Takes(m: Module, k: nat) {
    !m.completed && k < |m.received| && k * m.blockSize < |m.data|
  }

  /** A module after block `k`. */
  function Absorb(m: Module, k: nat, block: seq<Byte>): (r: Module) {
    if !Takes(m, k) then m
    else
      var data := Overwrite(m.data, k * m.blockSize, block);
      var count := if m.received[k] then m.count else m.count + 1;
      if count < |m.received| then m.(data := data, received := m.received[k := true], count := count)
      else m.(data := data, received := [], count := count, completed := true)
  }

  // ------------------------------------------------------------------- counting

  lemma {:induction false} TruesBound(flags: seq<bool>)
    ensures Trues(flags) <= |flags|
    ensures Trues(flags) == |flags| <==> forall i | 0 <= i < |flags| :: flags[i]
  {
    if flags != [] { TruesBound(flags[..|flags| - 1]); }
  }

  lemma {:induction false} TruesSet(flags: seq<bool>, k: nat)
    requires k < |flags|
    ensures Trues(flags[k := true]) == Trues(flags) + (if flags[k] then 0 else 1)
  {
    var n := |flags| - 1;
    if k < n {
      assert flags[k := true][..n] == flags[..n][k := true];
      TruesSet(flags[..n], k);
    } else {
      assert flags[k := true][..n] == flags[..n];
    }
  }

  lemma {:induction false} NoTrues(n: nat)
    ensures Trues(AllFalse(n)) == 0
  {
    if n > 0 {
      assert AllFalse(n)[..n - 1] == AllFalse(n - 1);
      NoTrues(n - 1);
    }
  }

  lemma NewModuleOk(info: Info, downloadId: nat, blockSize: nat, generation: nat)
    requires info.size > 0 && blockSize > 0
    ensures ModuleOk(NewModule(info, downloadId, blockSize, generation))
  {
    NoTrues(BlockCount(info.size, blockSize));
  }

  /** Absorbing keeps the bookkeeping right, and a module completes with the last flag. */
  lemma AbsorbOk(m: Module, k: nat, block: seq<Byte>)
    requires ModuleOk(m)
    ensures ModuleOk(Absorb(m, k, block)) && Absorb(m, k, block).info == m.info
    ensures !m.completed ==>
              (Absorb(m, k, block).completed <==>
               Takes(m, k) && forall i | 0 <= i < |m.received| && i != k :: m.received[i])
  {
    if Takes(m, k) {
      var flags := m.received[k := true];
      TruesSet(m.received, k);
      TruesBound(flags);
      TruesBound(m.received);
      if forall i | 0 <= i < |m.received| && i != k :: m.received[i] {
        forall i | 0 <= i < |flags| ensures flags[i] { assert i != k ==> m.received[i]; }
      } else {
        var i :| 0 <= i < |m.received| && i != k && !m.received[i];
        assert !flags[i];
      }
    }
  }

  // ------------------------------------------------------------- a whole download

  /** Block `k` of a payload, of full size unless it is the last. */
  function Block(payload: seq<Byte>, blockSize: nat, k: nat): seq<Byte> {
    var off := k * blockSize;
    if off >= |payload| then []
    else if off + blockSize > |payload| then payload[off..]
    else payload[off..off + blockSize]
  }

  /** The module after the blocks with these numbers, in this order. */
  function Fed(m: Module, payload: seq<Byte>, blocks: seq<nat>): (r: Module)
    requires ModuleOk(m) && m.blockSize > 0
    ensures ModuleOk(r) && r.info == m.info && r.blockSize == m.blockSize && r.downloadId == m.downloadId
            && r.generation == m.generation
  {
    if blocks == [] then m
    else
      var n := |blocks| - 1;
      var before := Fed(m, payload, blocks[..n]);
      AbsorbOk(before, blocks[n], Block(payload, m.blockSize, blocks[n]));
      Absorb(before, blocks[n], Block(payload, m.blockSize, blocks[n]))
  }

  function BlockOf(x: nat, blockSize: nat): nat
    requires blockSize > 0
  {
    x / blockSize
  }

  /** Byte `x` is right if its block has come. */
  ghost predicate Right(data: seq<Byte>, payload: seq<Byte>, blockSize: nat, blocks: seq<nat>, x: nat) {
    x < |payload| && x < |data| && blockSize > 0 && BlockOf(x, blockSize) in blocks ==> data[x] == payload[x]
  }

  lemma {:induction false} MulStep(a: nat, b: nat, c: nat)
    requires a < b
    ensures a * c + c <= b * c
  {
    assert b * c == (b - 1) * c + c;
    if a < b - 1 { MulStep(a, b - 1, c); }
  }

  lemma Quotient(x: nat, q: nat, c: nat)
    requires c > 0
    ensures x / c == q <==> q * c <= x < q * c + c
  {
    var p, r := x / c, x % c;
    assert x == p * c + r;
    if p < q { MulStep(p, q, c); }
    if q < p { MulStep(q, p, c); }
  }

  /** Without wrap-around the blocks are those that start inside the payload. */
  lemma BlocksCover(size: nat, blockSize: nat, k: nat)
    requires blockSize > 0 && size + blockSize - 1 < WORD
    ensures k < BlockCount(size, blockSize) <==> k * blockSize < size
  {
    var t := size + blockSize - 1;
    assert BlockCount(size, blockSize) == t / blockSize;
    var n := t / blockSize;
    Quotient(t, n, blockSize);
    if k < n { MulStep(k, n, blockSize); }
    if n < k { MulStep(n, k, blockSize); }
  }

  lemma AbsorbBytes(data: seq<Byte>, payload: seq<Byte>, blockSize: nat, blocks: seq<nat>, k: nat, x: nat)
    requires |data| == |payload| && blockSize > 0 && k * blockSize < |data|
    requires Right(data, payload, blockSize, blocks, x)
    ensures Right(Overwrite(data, k * blockSize, Block(payload, blockSize, k)), payload, blockSize, blocks + [k], x)
  {
    Quotient(x, k, blockSize);
  }

  /** What has been received after any blocks: flags, bytes, and whether it is all. */
  ghost predicate Progress(m: Module, payload: seq<Byte>, blocks: seq<nat>) {
    && m.blockSize > 0
    && (m.completed <==> forall k | 0 <= k < BlockCount(m.info.size, m.blockSize) :: k in blocks)
    && (!m.completed ==> forall k | 0 <= k < |m.received| :: m.received[k] <==> k in blocks)
    && |m.data| == |payload| && forall x :: Right(m.data, payload, m.blockSize, blocks, x)
  }

  lemma {:induction false} FedProgress(m: Module, payload: seq<Byte>, blocks: seq<nat>)
    requires ModuleOk(m) && !m.completed && |payload| == m.info.size
    requires m.received == AllFalse(BlockCount(m.info.size, m.blockSize)) && m.info.size + m.blockSize - 1 < WORD
    ensures Progress(Fed(m, payload, blocks), payload, blocks)
  {
    if blocks == [] {
      BlocksCover(m.info.size, m.blockSize, 0);
      assert 0 !in blocks;
    } else {
      var n := |blocks| - 1;
      FedProgress(m, payload, blocks[..n]);
      AbsorbProgress(Fed(m, payload, blocks[..n]), payload, blocks[..n], blocks[n]);
      assert blocks == blocks[..n] + [blocks[n]];
    }
  }

  lemma AbsorbProgress(m: Module, payload: seq<Byte>, blocks: seq<nat>, k: nat)
    requires ModuleOk(m) && Progress(m, payload, blocks) && |payload| == m.info.size
             && m.info.size + m.blockSize - 1 < WORD
    ensures Progress(Absorb(m, k, Block(payload, m.blockSize, k)), payload, blocks + [k])
  {
    var r := Absorb(m, k, Block(payload, m.blockSize, k));
    BlocksCover(m.info.size, m.blockSize, k);
    AbsorbOk(m, k, Block(payload, m.blockSize, k));
    forall x ensures Right(r.data, payload, m.blockSize, blocks + [k], x) {
      assert Right(m.data, payload, m.blockSize, blocks, x);
      if Takes(m, k) { AbsorbBytes(m.data, payload, m.blockSize, blocks, k, x); }
      else { Quotient(x, k, m.blockSize); }
    }
    if !r.completed { SomeBlockMissing(m, blocks, k); }
  }

  lemma SomeBlockMissing(m: Module, blocks: seq<nat>, k: nat)
    requires ModuleOk(m) && !m.completed && (forall i | 0 <= i < |m.received| :: m.received[i] <==> i in blocks)
    requires !Takes(m, k) || exists i | 0 <= i < |m.received| && i != k :: !m.received[i]
    requires k * m.blockSize >= m.info.size ==> k >= |m.received|
    requires exists i | 0 <= i < |m.received| :: i !in blocks
    ensures exists i | 0 <= i < |m.received| :: i !in blocks + [k]
  {
    var i :| 0 <= i < |m.received| && i !in blocks && (Takes(m, k) ==> i != k);
    assert i !in blocks + [k];
  }

  /** A download completes exactly when every block has come, in whatever order and however often,
      and then holds the payload. */
  lemma {:induction false} DownloadCompletes(m: Module, payload: seq<Byte>, blocks: seq<nat>)
    requires ModuleOk(m) && !m.completed && |payload| == m.info.size
    requires m.received == AllFalse(BlockCount(m.info.size, m.blockSize)) && m.info.size + m.blockSize - 1 < WORD
    ensures Fed(m, payload, blocks).completed
            <==> forall k | 0 <= k < BlockCount(m.info.size, m.blockSize) :: k in blocks
    ensures Fed(m, payload, blocks).completed ==> Fed(m, payload, blocks).data == payload
  {
    var r := Fed(m, payload, blocks);
    FedProgress(m, payload, blocks);
    if r.completed { BytesRight(r.data, payload, m.blockSize, blocks, BlockCount(m.info.size, m.blockSize)); }
  }

  lemma BlockHasCome(size: nat, blockSize: nat, blocks: seq<nat>, count: nat, x: nat)
    requires blockSize > 0 && size + blockSize - 1 < WORD && count == BlockCount(size, blockSize) && x < size
    requires forall k | 0 <= k < count :: k in blocks
    ensures BlockOf(x, blockSize) in blocks
  {}

  lemma ByteRight(data: seq<Byte>, payload: seq<Byte>, blockSize: nat, blocks: seq<nat>, x: nat)
    requires |data| == |payload| && blockSize > 0 && x < |payload| && BlockOf(x, blockSize) in blocks
    requires Right(data, payload, blockSize, blocks, x)
    ensures data[x] == payload[x]
  {}

  lemma BytesRight(data: seq<Byte>, payload: seq<Byte>, blockSize: nat, blocks: seq<nat>, count: nat)
    requires |data| == |payload| && blockSize > 0 && |payload| + blockSize - 1 < WORD
             && count == BlockCount(|payload|, blockSize)
    requires (forall k | 0 <= k < count :: k in blocks) && forall x :: Right(data, payload, blockSize, blocks, x)
    ensures data == payload
  {
    forall x | 0 <= x < |payload| ensures data[x] == payload[x] {
      BlockHasCome(|payload|, blockSize, blocks, count, x);
      ByteRight(data, payload, blockSize, blocks, x);
    }
  }

  // ---------------------------------------------------------------- adding up

  /** What a module adds to the completed bytes (`done`) or to the in-flight bytes. */
  function Load(m: Module, done: bool): nat {
    if m.completed != done then 0 else if done then |m.data| else m.info.size
  }

  /** The load of all modules with ids below `n`. */
  ghost function Total(ms: Modules, done: bool, n: nat): nat {
    if n == 0 then 0 else Total(ms, done, n - 1) + (if n - 1 in ms then Load(ms[n - 1], done) else 0)
  }

  lemma {:induction false} TotalSame(ms: Modules, ms': Modules, done: bool, n: nat)
    requires forall i | 0 <= i < n :: (i in ms <==> i in ms') && (i in ms ==> Load(ms[i], done) == Load(ms'[i], done))
    ensures Total(ms, done, n) == Total(ms', done, n)
  {
    if n > 0 { TotalSame(ms, ms', done, n - 1); }
  }

  lemma {:induction false} TotalUpdate(ms: Modules, id: nat, m: Module, done: bool, n: nat)
    requires id < n
    ensures Total(ms[id := m], done, n)
            == Total(ms, done, n) - (if id in ms then Load(ms[id], done) else 0) + Load(m, done)
  {
    if id == n - 1 { TotalSame(ms, ms[id := m], done, n - 1); } else { TotalUpdate(ms, id, m, done, n - 1); }
  }

  lemma {:induction false} TotalLe(ms: Modules, ms': Modules, done: bool, n: nat)
    requires forall i | 0 <= i < n && i in ms :: i in ms' && Load(ms[i], done) <= Load(ms'[i], done)
    ensures Total(ms, done, n) <= Total(ms', done, n)
  {
    if n > 0 { TotalLe(ms, ms', done, n - 1); }
  }

  lemma {:induction false} TotalRemove(ms: Modules, id: nat, done: bool, n: nat)
    requires id < n && id in ms
    ensures Total(ms - {id}, done, n) == Total(ms, done, n) - Load(ms[id], done)
  {
    if id == n - 1 { TotalSame(ms, ms - {id}, done, n - 1); } else { TotalRemove(ms, id, done, n - 1); }
  }

  lemma {:induction false} TotalOnly(ms: Modules, except: int, done: bool, n: nat)
    requires forall i | 0 <= i < n && i in ms :: i != except ==> Load(ms[i], done) == 0
    ensures Total(ms, done, n) <= if 0 <= except < n && except in ms then Load(ms[except], done) else 0
  {
    if n > 0 { TotalOnly(ms, except, done, n - 1); }
  }
}
