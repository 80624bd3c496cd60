/** The logo carousel's assembler (ts/logo_common.go), which keeps its blocks in a map. */
module CarouselLogo {
  import opened Basics
  import opened CarouselModel

  type BlockMap = map<nat, seq<Byte>>

  const SHORT := 0x1_0000

  /** The first `n` blocks end to end, if all are there; block numbers have 16 bits. */
  function Joined(blocks: BlockMap, n: nat): Option<seq<Byte>> {
    if n == 0 then Some([])
    else
      var before := Joined(blocks, n - 1);
      if before.Some? && (n - 1) % SHORT in blocks then Some(before.value + blocks[(n - 1) % SHORT]) else None
  }

  function Assembled(blocks: BlockMap, size: nat, blockSize: nat): Option<seq<Byte>> {
    if blockSize == 0 || |blocks| < BlockCount(size, blockSize) then None
    else
      var all := Joined(blocks, BlockCount(size, blockSize));
      if all.None? || |all.value| % WORD < size || |all.value| < size then None else Some(all.value[..size])
  }

  class LogoModule {
    const info: Info
    const downloadId: nat
    const blockSize: nat
    var blocks: BlockMap
    var emitted: bool

    constructor (info: Info, downloadId: nat, blockSize: nat)
      ensures blocks == map[] && !emitted && this.info == info && this.downloadId == downloadId
              && this.blockSize == blockSize
    {
      this.info, this.downloadId, this.blockSize, blocks, emitted := info, downloadId, blockSize, map[], false;
    }

    method Assemble() returns (data: Option<seq<Byte>>)
      ensures data == Assembled(blocks, info.size, blockSize)
    {
      if blockSize == 0 { return None; }
      var count := BlockCount(info.size, blockSize);
      if |blocks| < count { return None; }
      var all: seq<Byte> := [];
      for i := 0 to count
        invariant Joined(blocks, i) == Some(all)
      {
        if i % SHORT !in blocks { JoinedMissing(blocks, i, count); return None; }
        all := all + blocks[i % SHORT];
      }
      if |all| % WORD < info.size { return None; }
      assert |all| >= |all| % WORD;
      return Some(all[..info.size]);
    }

    /** Stores a matching block and assembles; `parses` is whether the logo data is well-formed. */
    method ObserveBlock(downloadId: nat, version: nat, k: nat, block: seq<Byte>,
                        parses: bool) returns (data: Option<seq<Byte>>)
      modifies this
      ensures var takes := !old(emitted) && downloadId == this.downloadId && version == info.version;
              && blocks == (if takes then old(blocks)[k := block] else old(blocks))
              && data == (if takes then Assembled(blocks, info.size, blockSize) else None)
              && emitted == (old(emitted) || (data.Some? && parses))
    {
      if emitted || downloadId != this.downloadId || version != info.version { return None; }
      blocks := blocks[k := block];
      data := Assemble();
      if data.Some? && parses { emitted := true; }
    }
  }

  lemma {:induction false} JoinedMissing(blocks: BlockMap, i: nat, n: nat)
    requires i < n && i % SHORT !in blocks
    ensures Joined(blocks, n) == None
  {
    if i < n - 1 { JoinedMissing(blocks, i, n - 1); }
  }

  // ---------------------------------------------------------- the same bytes

  /** The block map after the payload's blocks with these numbers, in this order. */
  function Stored(payload: seq<Byte>, blockSize: nat, blocks: seq<nat>): BlockMap {
    if blocks == [] then map[]
    else
      var n := |blocks| - 1;
      Stored(payload, blockSize, blocks[..n])[blocks[n] := Block(payload, blockSize, blocks[n])]
  }

  lemma {:induction false} StoredIs(payload: seq<Byte>, blockSize: nat, blocks: seq<nat>, k: nat)
    ensures k in Stored(payload, blockSize, blocks) <==> k in blocks
    ensures k in blocks ==> Stored(payload, blockSize, blocks)[k] == Block(payload, blockSize, k)
  {
    if blocks != [] {
      var n := |blocks| - 1;
      StoredIs(payload, blockSize, blocks[..n], k);
      assert blocks == blocks[..n] + [blocks[n]];
    }
  }

  lemma {:induction false} EnoughKeys(keys: set<nat>, n: nat)
    requires forall k | 0 <= k < n :: k in keys
    ensures |keys| >= n
  {
    if n > 0 { EnoughKeys(keys - {n - 1}, n - 1); }
  }

  /** The payload up to block `n`. */
  function UpTo(payload: seq<Byte>, blockSize: nat, n: nat): seq<Byte> {
    var off := n * blockSize;
    if off < |payload| then payload[..off] else payload
  }

  lemma UpToNext(payload: seq<Byte>, blockSize: nat, n: nat)
    requires n * blockSize < |payload|
    ensures UpTo(payload, blockSize, n) + Block(payload, blockSize, n) == UpTo(payload, blockSize, n + 1)
  {}

  ghost predicate HasBlock(blocks: BlockMap, payload: seq<Byte>, blockSize: nat, k: nat) {
    k in blocks && blocks[k] == Block(payload, blockSize, k) && k * blockSize < |payload|
  }

  lemma {:induction false} JoinedPrefix(blocks: BlockMap, payload: seq<Byte>, blockSize: nat, n: nat)
    requires n <= SHORT && forall k | 0 <= k < n :: HasBlock(blocks, payload, blockSize, k)
    ensures Joined(blocks, n) == Some(UpTo(payload, blockSize, n))
  {
    if n == 0 {
      assert UpTo(payload, blockSize, 0) == [];
    } else {
      JoinedPrefix(blocks, payload, blockSize, n - 1);
      assert HasBlock(blocks, payload, blockSize, n - 1);
      UpToNext(payload, blockSize, n - 1);
      assert (n - 1) % SHORT == n - 1;
    }
  }

  lemma AssembledWhole(blocks: BlockMap, payload: seq<Byte>, blockSize: nat, count: nat)
    requires blockSize > 0 && count == BlockCount(|payload|, blockSize) && |payload| < WORD
    requires |blocks| >= count && Joined(blocks, count) == Some(payload)
    ensures Assembled(blocks, |payload|, blockSize) == Some(payload)
  {
    assert payload[..|payload|] == payload;
  }

  lemma {:induction false} StoredWhole(payload: seq<Byte>, blockSize: nat, blocks: seq<nat>, count: nat)
    requires blockSize > 0 && |payload| + blockSize - 1 < WORD && count == BlockCount(|payload|, blockSize) <= SHORT
    requires forall k | 0 <= k < count :: k in blocks
    ensures Assembled(Stored(payload, blockSize, blocks), |payload|, blockSize) == Some(payload)
  {
    var stored := Stored(payload, blockSize, blocks);
    forall k | 0 <= k < count ensures HasBlock(stored, payload, blockSize, k) {
      StoredIs(payload, blockSize, blocks, k);
      BlocksCover(|payload|, blockSize, k);
    }
    assert forall k | 0 <= k < count :: k in stored.Keys by {
      forall k | 0 <= k < count ensures k in stored.Keys { assert HasBlock(stored, payload, blockSize, k); }
    }
    EnoughKeys(stored.Keys, count);
    JoinedPrefix(stored, payload, blockSize, count);
    assert UpTo(payload, blockSize, count) == payload by { BlocksCover(|payload|, blockSize, count); }
    AssembledWhole(stored, payload, blockSize, count);
  }

  lemma {:induction false} StoredPart(payload: seq<Byte>, blockSize: nat, blocks: seq<nat>, count: nat, k: nat)
    requires blockSize > 0 && k < count <= SHORT && count == BlockCount(|payload|, blockSize) && k !in blocks
    ensures Assembled(Stored(payload, blockSize, blocks), |payload|, blockSize) == None
  {
    var stored := Stored(payload, blockSize, blocks);
    assert k !in stored by { StoredIs(payload, blockSize, blocks, k); }
    assert Joined(stored, count) == None by {
      assert k % SHORT == k;
      JoinedMissing(stored, k, count);
    }
  }

  /** The logo assembler yields the payload exactly when the carousel's module completes with it. */
  lemma {:induction false} LogoAgrees(m: Module, payload: seq<Byte>, blocks: seq<nat>)
    requires ModuleOk(m) && !m.completed && |payload| == m.info.size
    requires m.received == AllFalse(BlockCount(m.info.size, m.blockSize)) && m.info.size + m.blockSize - 1 < WORD
    requires BlockCount(m.info.size, m.blockSize) <= SHORT
    ensures Assembled(Stored(payload, m.blockSize, blocks), m.info.size, m.blockSize)
         == if Fed(m, payload, blocks).completed then Some(Fed(m, payload, blocks).data) else None
  {
    DownloadCompletes(m, payload, blocks);
    if Fed(m, payload, blocks).completed {
      StoredWhole(payload, m.blockSize, blocks, BlockCount(m.info.size, m.blockSize));
    } else {
      var k :| 0 <= k < BlockCount(m.info.size, m.blockSize) && k !in blocks;
      StoredPart(payload, m.blockSize, blocks, BlockCount(m.info.size, m.blockSize), k);
    }
  }
}
