/** `OracleBackedPolymeraseChain`: the fault-proof program's view of the L2
    chain. Blocks come from the preimage oracle or from those inserted while
    deriving; a number-to-hash cache indexes the canonical chain and is
    kept consistent with the head as the head moves. */
module EngineBackend {
  import opened Wrappers
  import opened ByteCodec
  import opened GoErrors

  /** A header: its number, its own hash and its parent's hash. */
  datatype Header = Header(number: nat, hash: Hash, parentHash: Hash)
  datatype Block = Block(header: Header, txs: seq<Bytes>)

  /** The L2 output the agreed output root commits to: version 0 names the
      head block; any other version is unsupported. */
  datatype Output = OutputV0(blockHash: Hash) | OtherOutput(version: nat)

  /** The block processor that re-executes a block: opening it on the
      block's header, adding the i-th transaction (after the earlier ones),
      assembling the block (giving its hash) and committing. */
  datatype Processor = Processor(
    open: Block -> Option<Error>,
    addTx: (Block, nat) -> Option<Error>,
    assemble: Block -> Result<Hash, Error>,
    commit: Block -> Option<Error>)

  /** The first transaction the processor rejects, from index `i` on. */
  function FirstRejected(p: Processor, block: Block, i: nat): (r: Option<(nat, Error)>)
    requires i <= |block.txs|
    decreases |block.txs| - i
    ensures r.Some? ==> i <= r.value.0 < |block.txs| && p.addTx(block, r.value.0) == Some(r.value.1)
    ensures r.Some? ==> forall j | i <= j < r.value.0 :: p.addTx(block, j).None?
    ensures r.None? <==> forall j | i <= j < |block.txs| :: p.addTx(block, j).None?
  {
    if i == |block.txs| then None
    else if p.addTx(block, i).Some? then Some((i, p.addTx(block, i).value))
    else FirstRejected(p, block, i + 1)
  }

  /** What `InsertBlockWithoutSetHead` returns, in the order of its checks. */
  function InsertOutcome(p: Processor, block: Block): Option<Error> {
    if p.open(block).Some? then p.open(block)
    else if FirstRejected(p, block, 0).Some? then
      var (i, e) := FirstRejected(p, block, 0).value;
      Some(Wrapped("invalid transaction (" + Decimal(i) + ")", e))
    else if p.assemble(block).Failure? then Some(Wrapped("invalid block", p.assemble(block).error))
    else if p.assemble(block).value != block.header.hash then Some(Message("block root mismatch"))
    else if p.commit(block).Some? then Some(Wrapped("commit block", p.commit(block).value))
    else None
  }

  /** A block is stored only when every check passes, among them that the
      re-executed block has the block's own hash. */
  lemma InsertAcceptsOnlyVerifiedBlocks(p: Processor, block: Block)
    ensures InsertOutcome(p, block).None? <==>
              p.open(block).None? && (forall j | 0 <= j < |block.txs| :: p.addTx(block, j).None?) &&
              p.assemble(block) == Success(block.header.hash) && p.commit(block).None?
  {
  }

  class Chain {
    /** `oracle.BlockByHash`. */
    const oracleBlock: Hash -> Block
    var oracleHead: Header
    var head: Header
    var safe: Header
    var finalized: Header
    var earliestIndexedBlock: Header
    /** The canonical number-to-hash cache. */
    var hashByNum: map<nat, Hash>
    /** Inserted blocks, by hash. */
    var blocks: map<Hash, Block>

    /** `GetBlockByHash`: an inserted block first, else the oracle's. */
    function BlockByHash(hash: Hash): (b: Block)
      reads this`blocks
      ensures hash in blocks ==> b == blocks[hash]
      ensures hash !in blocks ==> b == oracleBlock(hash)
    {
      if hash in blocks then blocks[hash] else oracleBlock(hash)
    }

    /** `GetHeaderByHash`. */
    function HeaderByHash(hash: Hash): Header
      reads this`blocks
    {
      BlockByHash(hash).header
    }

    /** Looking a header up by its hash gives it back. */
    predicate Known(h: Header)
      reads this`blocks
    {
      HeaderByHash(h.hash) == h
    }

    /** The header of the parent of the block with hash `x`. */
    function ParentOf(x: Hash): Header
      reads this`blocks
    {
      HeaderByHash(HeaderByHash(x).parentHash)
    }

    /** Every lookup gives a block with the hash asked for, whose parent is
        numbered one lower. */
    ghost predicate Linked()
      reads this`blocks
    {
      (forall x: Hash :: HeaderByHash(x).hash == x) &&
      (forall x: Hash {:trigger ParentOf(x)} :: HeaderByHash(x).number > 0 ==> ParentOf(x).number + 1 == HeaderByHash(x).number)
    }

    /** The ancestor of `h` numbered `n`, found by following parent hashes. */
    function AncestorAt(h: Header, n: nat): (a: Header)
      reads this`blocks
      requires Linked() && Known(h) && n <= h.number
      decreases h.number - n
      ensures a.number == n && Known(a)
    {
      if h.number == n then h else AncestorAt(ParentOf(h.hash), n)
    }

    /** The cache holds only canonical hashes at or below the head, always
        including the agreed starting head, from which the head descends. */
    ghost predicate Valid()
      reads this
    {
      Linked() && Known(head) && Known(oracleHead) &&
      oracleHead.number <= head.number && AncestorAt(head, oracleHead.number) == oracleHead &&
      oracleHead.number in hashByNum && CanonicalFor(head, hashByNum)
    }

    /** Every entry of `m` is the hash at its number on the chain ending at `top`. */
    ghost predicate CanonicalFor(top: Header, m: map<nat, Hash>)
      reads this`blocks
      requires Linked() && Known(top)
    {
      forall k | k in m :: k <= top.number && m[k] == AncestorAt(top, k).hash
    }

    constructor (oracleBlock: Hash -> Block, head: Header)
      ensures this.oracleBlock == oracleBlock && blocks == map[]
      ensures oracleHead == head && this.head == head && safe == head && finalized == head
      ensures earliestIndexedBlock == head && hashByNum == map[head.number := head.hash]
    {
      this.oracleBlock := oracleBlock;
      oracleHead := head;
      this.head := head;
      safe := head;
      finalized := head;
      earliestIndexedBlock := head;
      hashByNum := map[head.number := head.hash];
      blocks := map[];
    }

    /** `GetHeaderByNumber`: nothing above the head; otherwise the canonical
        header at `n`, from the cache or by walking back from the head and
        caching every ancestor passed. */
    method GetHeaderByNumber(n: nat) returns (r: Option<Header>)
      requires Valid()
      modifies this`hashByNum, this`earliestIndexedBlock
      ensures Valid()
      ensures n > head.number ==> r.None?
      ensures n <= head.number ==> r == Some(AncestorAt(head, n))
      ensures forall k | k in old(hashByNum) :: k in hashByNum
      ensures n <= head.number && n !in old(hashByNum) ==>
                (forall k | n <= k < head.number :: k in hashByNum) && earliestIndexedBlock == AncestorAt(head, n)
      ensures n > head.number || n in old(hashByNum) ==> hashByNum == old(hashByNum)
    {
      if head.number < n {
        return None;
      }
      if n in hashByNum {
        return Some(HeaderByHash(hashByNum[n]));
      }
      var h := head;
      ghost var m0 := hashByNum;
      var m: map<nat, Hash> := hashByNum;
      while h.number > n
        invariant CanonicalFor(head, m) && oracleHead.number in m
        invariant Known(h) && n <= h.number <= head.number && h == AncestorAt(head, h.number)
        invariant forall k | k in m0 :: k in m
        invariant forall k | h.number <= k < head.number :: k in m
        decreases h.number
      {
        var parent := HeaderByHash(h.parentHash);
        AncestorStep(this, head, h.number);
        h := parent;
        CanonicalExtend(this, m, h.number);
        m := m[h.number := h.hash];
      }
      hashByNum := m;
      earliestIndexedBlock := h;
      r := Some(h);
    }

    /** `GetBlock`: above the agreed starting head only inserted blocks are
        considered; a block is returned only if it carries the number asked for. */
    function GetBlock(hash: Hash, number: nat): (r: Option<Block>)
      reads this
      ensures r.Some? ==> r.value.header.number == number
      ensures r.Some? ==> r.value == BlockByHash(hash)
      ensures oracleHead.number < number ==> (r.Some? <==> hash in blocks && blocks[hash].header.number == number)
      ensures oracleHead.number >= number ==> (r.Some? <==> BlockByHash(hash).header.number == number)
    {
      var block := if oracleHead.number < number then (if hash in blocks then Some(blocks[hash]) else None)
                   else Some(BlockByHash(hash));
      if block.None? || block.value.header.number != number then None else block
    }

    /** `GetCanonicalHash`: the canonical hash at `n`, or the zero hash above the head. */
    method GetCanonicalHash(n: nat) returns (r: Hash)
      requires Valid()
      modifies this`hashByNum, this`earliestIndexedBlock
      ensures Valid()
      ensures r == if n > head.number then Zeros(32) else AncestorAt(head, n).hash
    {
      var header := GetHeaderByNumber(n);
      if header.None? {
        return Zeros(32);
      }
      r := header.value.hash;
    }

    /** `InsertBlockWithoutSetHead`: re-executes the block and stores it only
        if every check passes. */
    method InsertBlockWithoutSetHead(p: Processor, block: Block) returns (err: Option<Error>)
      modifies this`blocks
      ensures err == InsertOutcome(p, block)
      ensures err.None? ==> blocks == old(blocks)[block.header.hash := block]
      ensures err.Some? ==> blocks == old(blocks)
      // an inserted block is then served by hash; no other lookup changes
      ensures err.None? ==> BlockByHash(block.header.hash) == block
      ensures forall h | err.Some? || h != block.header.hash :: BlockByHash(h) == old(BlockByHash(h))
    {
      err := p.open(block);
      if err.Some? {
        return;
      }
      var i := 0;
      while i < |block.txs|
        invariant 0 <= i <= |block.txs|
        invariant FirstRejected(p, block, 0) == FirstRejected(p, block, i)
      {
        var e := p.addTx(block, i);
        if e.Some? {
          return Some(Wrapped("invalid transaction (" + Decimal(i) + ")", e.value));
        }
        i := i + 1;
      }
      var expected := p.assemble(block);
      if expected.Failure? {
        return Some(Wrapped("invalid block", expected.error));
      }
      if expected.value != block.header.hash {
        return Some(Message("block root mismatch"));
      }
      var c := p.commit(block);
      if c.Some? {
        return Some(Wrapped("commit block", c.value));
      }
      blocks := blocks[block.header.hash := block];
    }

    /** `SetCanonical`: makes `newHead` the head, drops the cache above it,
        and rewrites the cache walking back from it until an entry already
        agrees. The walk ends at the latest at the agreed starting head, so
        the new head must descend from it. */
    method SetCanonical(newHead: Block) returns (hash: Hash, err: Option<Error>)
      requires Valid()
      requires Known(newHead.header) && oracleHead.number <= newHead.header.number
      requires AncestorAt(newHead.header, oracleHead.number) == oracleHead
      modifies this`head, this`hashByNum
      ensures Valid()
      ensures head == newHead.header && hash == newHead.header.hash && err == None
      ensures forall k | k in hashByNum :: k <= head.number && hashByNum[k] == AncestorAt(head, k).hash
      ensures forall k | old(head).number >= k > head.number :: k !in hashByNum
    {
      var oldHead := head;
      ghost var before := hashByNum;
      head := newHead.header;
      DropAbove(newHead.header.number, oldHead.number);
      ghost var pruned := hashByNum;
      ghost var s := IndexBack();
      CacheAgreesBelow(this, oldHead, s, before, pruned, hashByNum);
      return newHead.header.hash, None;
    }

    /** The first loop of `SetCanonical`: deletes the entries numbered above
        `lo` up to `hi`. */
    method DropAbove(lo: nat, hi: nat)
      modifies this`hashByNum
      ensures forall k :: k in hashByNum <==> k in old(hashByNum) && !(lo < k <= hi)
      ensures forall k | k in hashByNum :: hashByNum[k] == old(hashByNum)[k]
    {
      var n := lo + 1;
      while n <= hi
        invariant lo < n && (n <= hi + 1 || n == lo + 1)
        invariant forall k :: k in hashByNum <==> k in old(hashByNum) && !(lo < k < n)
        invariant forall k | k in hashByNum :: hashByNum[k] == old(hashByNum)[k]
      {
        hashByNum := hashByNum - {n};
        n := n + 1;
      }
    }

    /** The second loop of `SetCanonical`: writes the canonical hashes from
        the head down, stopping at the first entry that already agrees, which
        is at the agreed starting head at the latest. */
    method IndexBack() returns (ghost s: nat)
      requires Linked() && Known(head) && oracleHead.number <= head.number
      requires AncestorAt(head, oracleHead.number) == oracleHead
      requires oracleHead.number in hashByNum && hashByNum[oracleHead.number] == oracleHead.hash
      modifies this`hashByNum
      ensures oracleHead.number <= s <= head.number
      ensures s in hashByNum && hashByNum[s] == AncestorAt(head, s).hash
      ensures forall k :: k in hashByNum <==> k in old(hashByNum) || s < k <= head.number
      ensures forall k | s < k <= head.number :: hashByNum[k] == AncestorAt(head, k).hash
      ensures forall k | k in old(hashByNum) && k <= s :: hashByNum[k] == old(hashByNum)[k]
    {
      var h := head;
      ghost var m0 := hashByNum;
      var m: map<nat, Hash> := hashByNum;
      while true
        invariant Known(h) && oracleHead.number <= h.number <= head.number
        invariant h == AncestorAt(head, h.number)
        invariant forall k :: k in m <==> k in m0 || h.number < k <= head.number
        invariant forall k | h.number < k <= head.number :: m[k] == AncestorAt(head, k).hash
        invariant forall k | k in m0 && k <= h.number :: m[k] == m0[k]
        decreases h.number
      {
        if h.number in m && m[h.number] == h.hash {
          hashByNum := m;
          return h.number;
        }
        assert h.number == oracleHead.number ==> h == oracleHead;
        var parent := HeaderByHash(h.parentHash);
        AncestorStep(this, head, h.number);
        m := m[h.number := h.hash];
        h := parent;
      }
    }

    /** `SetSafe` and `SetFinalized` change only their own field. */
    method SetSafe(header: Header)
      modifies this`safe
      ensures safe == header
    {
      safe := header;
    }

    method SetFinalized(header: Header)
      modifies this`finalized
      ensures finalized == header
    {
      finalized := header;
    }
  }

  /** Adding the canonical hash at a number keeps a cache canonical. */
  lemma CanonicalExtend(c: Chain, m: map<nat, Hash>, k: nat)
    requires c.Linked() && c.Known(c.head) && k <= c.head.number && c.CanonicalFor(c.head, m)
    ensures c.CanonicalFor(c.head, m[k := c.AncestorAt(c.head, k).hash])
  {
  }

  /** Stepping to the parent moves the ancestor walk one number down. */
  lemma AncestorStep(c: Chain, h: Header, m: nat)
    requires c.Linked() && c.Known(h) && 0 < m <= h.number
    ensures c.AncestorAt(h, m - 1) == c.HeaderByHash(c.AncestorAt(h, m).parentHash)
  {
    AncestorTransitive(c, h, m, m - 1);
  }

  /** An ancestor's ancestor is an ancestor. */
  lemma {:induction false} AncestorTransitive(c: Chain, h: Header, m: nat, k: nat)
    requires c.Linked() && c.Known(h) && k <= m <= h.number
    decreases h.number - m
    ensures c.AncestorAt(c.AncestorAt(h, m), k) == c.AncestorAt(h, k)
  {
    if h.number != m {
      var p := c.ParentOf(h.hash);
      assert p.number + 1 == h.number;
      AncestorTransitive(c, p, m, k);
    } else if m != k {
      assert c.AncestorAt(h, m) == h;
    }
  }

  /** Two chains that agree on the hash at one height agree at every lower height. */
  lemma ChainsAgreeBelow(c: Chain, a: Header, b: Header, s: nat, k: nat)
    requires c.Linked() && c.Known(a) && c.Known(b) && k <= s <= a.number && s <= b.number
    requires c.AncestorAt(a, s).hash == c.AncestorAt(b, s).hash
    ensures c.AncestorAt(a, k) == c.AncestorAt(b, k)
  {
    AncestorTransitive(c, a, s, k);
    AncestorTransitive(c, b, s, k);
  }

  /** After the walk in `SetCanonical` stops at height `s`, the entries it did
      not rewrite agree with the new head too. */
  lemma CacheAgreesBelow(c: Chain, oldHead: Header, s: nat, before: map<nat, Hash>, pruned: map<nat, Hash>,
                         after: map<nat, Hash>)
    requires c.Linked() && c.Known(oldHead) && c.Known(c.head) && s <= c.head.number
    requires c.oracleHead.number <= s
    requires c.CanonicalFor(oldHead, before)
    requires forall k | k in pruned :: k in before && pruned[k] == before[k] && k <= c.head.number
    requires c.oracleHead.number in pruned
    requires s in after && after[s] == c.AncestorAt(c.head, s).hash
    requires forall k :: k in after <==> k in pruned || s < k <= c.head.number
    requires forall k | s < k <= c.head.number :: after[k] == c.AncestorAt(c.head, k).hash
    requires forall k | k in pruned && k <= s :: after[k] == pruned[k]
    ensures c.oracleHead.number in after && c.CanonicalFor(c.head, after)
  {
    assert s in pruned;
    assert s <= oldHead.number && c.AncestorAt(oldHead, s).hash == c.AncestorAt(c.head, s).hash;
    forall k | k in after
      ensures k <= c.head.number && after[k] == c.AncestorAt(c.head, k).hash
    {
      if k < s {
        assert k in pruned && after[k] == before[k];
        ChainsAgreeBelow(c, oldHead, c.head, s, k);
      }
    }
  }

  /** `NewOracleBackedPolymeraseChain`: the head named by a version-0 output
      becomes the head, safe, finalized and agreed starting head, and the
      only cached number. */
  method NewChain(oracleBlock: Hash -> Block, outputByRoot: Hash -> Output, l2OutputRoot: Hash)
    returns (c: Chain?, err: Option<Error>)
    ensures c == null <==> err.Some?
    ensures err.Some? <==> outputByRoot(l2OutputRoot).OtherOutput?
    ensures outputByRoot(l2OutputRoot).OtherOutput? ==>
              err == Some(Message("unsupported L2 output version: " + Decimal(outputByRoot(l2OutputRoot).version)))
    ensures c != null ==>
              var head := oracleBlock(outputByRoot(l2OutputRoot).blockHash).header;
              fresh(c) && c.oracleBlock == oracleBlock && c.blocks == map[] &&
              c.head == head && c.safe == head && c.finalized == head && c.oracleHead == head &&
              c.earliestIndexedBlock == head && c.hashByNum == map[head.number := head.hash]
    // an oracle that answers by hash and links parents gives a consistent chain
    ensures c != null && OracleLinked(oracleBlock) ==> c.Valid()
  {
    var output := outputByRoot(l2OutputRoot);
    if output.OtherOutput? {
      return null, Some(Message("unsupported L2 output version: " + Decimal(output.version)));
    }
    var head := oracleBlock(output.blockHash);
    c := new Chain(oracleBlock, head.header);
    err := None;
  }

  /** The oracle answers with the block asked for, whose parent is numbered one lower. */
  ghost predicate OracleLinked(oracleBlock: Hash -> Block) {
    forall x: Hash ::
      oracleBlock(x).header.hash == x &&
      (oracleBlock(x).header.number > 0 ==>
         oracleBlock(oracleBlock(x).header.parentHash).header.number + 1 == oracleBlock(x).header.number)
  }
}
