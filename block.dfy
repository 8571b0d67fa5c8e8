/**
 * The consensus block data model (src/consensus/block.rs): headers, blocks
 * in pointer form and full form, block proposals, and the proposal chain
 * with its linkage rules.
 */
module Consensus {
  import opened Primitives

  /** A blake3 digest. */
  type Hash = s: seq<u8> | |s| == 32 witness seq(32, _ => 0)

  /** Four magic bytes. */
  type Magic = s: seq<u8> | |s| == 4 witness [0, 0, 0, 0]

  /** A block creation time, opaque to this model. */
  datatype Timestamp = Timestamp(raw: int)

  /** Block metadata (leader address and proof data), opaque to this model. */
  datatype Metadata = Metadata(raw: seq<u8>)

  /** A transaction, opaque to this model. */
  datatype Transaction = Transaction(raw: seq<u8>)

  /** BLOCK_VERSION, BLOCK_MAGIC_BYTES and Metadata::default() come from the consensus module root. */
  const BLOCK_VERSION: u8
  const BLOCK_MAGIC_BYTES: Magic
  const DEFAULT_METADATA: Metadata

  /** The blake3 hash function and the canonical serializations it is applied to. */
  const Blake3: seq<u8> -> Hash
  const SerializeHeader: Header -> seq<u8>
  const SerializeBlock: Block -> seq<u8>
  const SerializeTransaction: Transaction -> seq<u8>

  datatype Header = Header(
    version: u8,
    previous: Hash,
    epoch: u64,
    slot: u64,
    timestamp: Timestamp,
    root: MerkleNode)

  /** The pointer form of a block: the header and transactions are stored as hashes. */
  datatype Block = Block(magic: Magic, header: Hash, txs: seq<Hash>, metadata: Metadata)

  /** The full form of a block. */
  datatype BlockInfo = BlockInfo(magic: Magic, header: Header, txs: seq<Transaction>, metadata: Metadata)

  datatype BlockProposal = BlockProposal(block: BlockInfo)

  /** Header::new: the version is always the fixed block version. */
  function NewHeader(previous: Hash, epoch: u64, slot: u64, timestamp: Timestamp, root: MerkleNode): (h: Header)
    ensures h.version == BLOCK_VERSION
    ensures h.previous == previous && h.epoch == epoch && h.slot == slot
    ensures h.timestamp == timestamp && h.root == root
  {
    Header(BLOCK_VERSION, previous, epoch, slot, timestamp, root)
  }

  /** Header::genesis_header: the root is that of an empty transaction tree. */
  function GenesisHeader(genesisTs: Timestamp, genesisData: Hash): (h: Header)
    ensures h.version == BLOCK_VERSION
    ensures h.epoch == 0 && h.slot == 0
    ensures h.previous == genesisData && h.timestamp == genesisTs
    ensures h.root == TreeRoot([])
  {
    NewHeader(genesisData, 0, 0, genesisTs, TreeRoot([]))
  }

  /** Header::default, with the current time passed in. */
  function DefaultHeader(now: Timestamp): (h: Header)
    ensures h.version == BLOCK_VERSION
    ensures h.previous == Blake3([]) && h.epoch == 0 && h.slot == 0
    ensures h.timestamp == now && h.root == MerkleNode(0)
  {
    NewHeader(Blake3([]), 0, 0, now, MerkleNode(0))
  }

  /** Header::headerhash: blake3 of the header's canonical serialization. */
  function HeaderHash(h: Header): (r: Hash)
    ensures r == Blake3(SerializeHeader(h))
  {
    Blake3(SerializeHeader(h))
  }

  function TransactionHash(tx: Transaction): Hash
  {
    Blake3(SerializeTransaction(tx))
  }

  /** Block::blockhash: blake3 of the pointer form's canonical serialization. */
  function BlockHash(b: Block): (r: Hash)
    ensures r == Blake3(SerializeBlock(b))
  {
    Blake3(SerializeBlock(b))
  }

  /** Block::new, with the current time passed in: the header is kept only as its hash. */
  function NewBlock(previous: Hash, epoch: u64, slot: u64, txs: seq<Hash>, root: MerkleNode,
                    metadata: Metadata, now: Timestamp): (b: Block)
    ensures b.magic == BLOCK_MAGIC_BYTES
    ensures b.header == HeaderHash(NewHeader(previous, epoch, slot, now, root))
    ensures b.txs == txs && b.metadata == metadata
  {
    Block(BLOCK_MAGIC_BYTES, HeaderHash(NewHeader(previous, epoch, slot, now, root)), txs, metadata)
  }

  /** Block::genesis_block: no transactions and default metadata. */
  function GenesisBlock(genesisTs: Timestamp, genesisData: Hash): (b: Block)
    ensures b.magic == BLOCK_MAGIC_BYTES
    ensures b.header == HeaderHash(GenesisHeader(genesisTs, genesisData))
    ensures b.txs == [] && b.metadata == DEFAULT_METADATA
  {
    Block(BLOCK_MAGIC_BYTES, HeaderHash(GenesisHeader(genesisTs, genesisData)), [], DEFAULT_METADATA)
  }

  /** BlockInfo::new. */
  function NewBlockInfo(header: Header, txs: seq<Transaction>, metadata: Metadata): (info: BlockInfo)
    ensures info.magic == BLOCK_MAGIC_BYTES
    ensures info.header == header && info.txs == txs && info.metadata == metadata
  {
    BlockInfo(BLOCK_MAGIC_BYTES, header, txs, metadata)
  }

  /** BlockInfo::default, with the current time passed in. */
  function DefaultBlockInfo(now: Timestamp): (info: BlockInfo)
    ensures info.magic == BLOCK_MAGIC_BYTES
    ensures info.header == DefaultHeader(now) && info.txs == [] && info.metadata == DEFAULT_METADATA
  {
    BlockInfo(BLOCK_MAGIC_BYTES, DefaultHeader(now), [], DEFAULT_METADATA)
  }

  /** The hashes of a list of transactions, in order (the iterator map in From<BlockInfo>). */
  function TransactionHashes(txs: seq<Transaction>): (hs: seq<Hash>)
    ensures |hs| == |txs|
    ensures forall i :: 0 <= i < |txs| ==> hs[i] == TransactionHash(txs[i])
  {
    if txs == [] then [] else [TransactionHash(txs[0])] + TransactionHashes(txs[1..])
  }

  /** From<BlockInfo> for Block. */
  function ToBlock(info: BlockInfo): (b: Block)
    ensures b.magic == info.magic && b.metadata == info.metadata
    ensures b.header == HeaderHash(info.header)
    ensures |b.txs| == |info.txs|
    ensures forall i :: 0 <= i < |info.txs| ==> b.txs[i] == TransactionHash(info.txs[i])
  {
    Block(info.magic, HeaderHash(info.header), TransactionHashes(info.txs), info.metadata)
  }

  /**
   * BlockInfo::blockhash: the hash of the pointer form, which sees the
   * header and each transaction only through their hashes.
   */
  function InfoBlockHash(info: BlockInfo): (r: Hash)
    ensures r == BlockHash(Block(info.magic, HeaderHash(info.header), TransactionHashes(info.txs), info.metadata))
  {
    BlockHash(ToBlock(info))
  }

  /**
   * Two full blocks with the same header and transactions convert to blocks
   * that differ at most in magic and metadata: the converted header and
   * transaction hashes do not depend on magic or metadata.
   */
  lemma {:induction false} ToBlockDependsOnHeaderAndTxs(a: BlockInfo, b: BlockInfo)
    requires a.header == b.header && a.txs == b.txs
    ensures ToBlock(a).header == ToBlock(b).header && ToBlock(a).txs == ToBlock(b).txs
  {
  }

  /**
   * Block::new on the transaction hashes and From<BlockInfo> on the full
   * block built from the same parts give the same pointer block, and so the
   * same block hash.
   */
  lemma NewBlockAgreesWithToBlock(previous: Hash, epoch: u64, slot: u64, txs: seq<Transaction>, root: MerkleNode,
                                  metadata: Metadata, now: Timestamp)
    ensures var info := NewBlockInfo(NewHeader(previous, epoch, slot, now, root), txs, metadata);
      NewBlock(previous, epoch, slot, TransactionHashes(txs), root, metadata, now) == ToBlock(info) &&
      BlockHash(NewBlock(previous, epoch, slot, TransactionHashes(txs), root, metadata, now)) == InfoBlockHash(info)
  {
  }

  /**
   * Two full blocks that agree on magic, metadata, the header hash and the
   * transaction hashes have the same block hash, even when their headers or
   * transactions differ: the block hash sees them only through their hashes.
   */
  lemma InfoBlockHashSeesOnlyHashes(a: BlockInfo, b: BlockInfo)
    requires a.magic == b.magic && a.metadata == b.metadata
    requires HeaderHash(a.header) == HeaderHash(b.header)
    requires TransactionHashes(a.txs) == TransactionHashes(b.txs)
    ensures InfoBlockHash(a) == InfoBlockHash(b)
  {
  }

  /** BlockProposal::new. */
  function NewProposal(header: Header, txs: seq<Transaction>, metadata: Metadata): (p: BlockProposal)
    ensures p.block == NewBlockInfo(header, txs, metadata)
  {
    BlockProposal(NewBlockInfo(header, txs, metadata))
  }

  /** PartialEq for BlockProposal: only the header and the transactions are compared. */
  predicate ProposalEq(a: BlockProposal, b: BlockProposal): (eq: bool)
    ensures eq <==> a.block.header == b.block.header && a.block.txs == b.block.txs
    ensures a == b ==> eq
  {
    a.block.header == b.block.header && a.block.txs == b.block.txs
  }

  /** Proposal equality ignores magic and metadata. */
  lemma ProposalEqIgnoresMetadata(p: BlockProposal, magic: Magic, metadata: Metadata)
    ensures ProposalEq(p, BlockProposal(p.block.(magic := magic, metadata := metadata)))
  {
  }

  /** Proposal equality is an equivalence relation. */
  lemma ProposalEqIsEquivalence(a: BlockProposal, b: BlockProposal, c: BlockProposal)
    ensures ProposalEq(a, a)
    ensures ProposalEq(a, b) ==> ProposalEq(b, a)
    ensures ProposalEq(a, b) && ProposalEq(b, c) ==> ProposalEq(a, c)
  {
  }

  /** Equal proposals convert to blocks with equal header and transaction hashes. */
  lemma ProposalEqSameHashes(a: BlockProposal, b: BlockProposal)
    requires ProposalEq(a, b)
    ensures ToBlock(a.block).header == ToBlock(b.block).header
    ensures ToBlock(a.block).txs == ToBlock(b.block).txs
  {
    ToBlockDependsOnHeaderAndTxs(a.block, b.block);
  }

  /**
   * ProposalChain::check_proposal, for a chain whose genesis block hash is
   * `genesis`: a proposal naming the genesis block as its parent is rejected
   * first; otherwise the parent hash must be that of `previous`'s header and
   * the slot must strictly increase.
   */
  function CheckProposal(genesis: Hash, proposal: BlockProposal, previous: BlockProposal): (ok: bool)
    ensures ok <==>
      && proposal.block.header.previous != genesis
      && proposal.block.header.previous == HeaderHash(previous.block.header)
      && proposal.block.header.slot > previous.block.header.slot
  {
    if proposal.block.header.previous == genesis then
      false
    else if proposal.block.header.previous != HeaderHash(previous.block.header)
         || proposal.block.header.slot <= previous.block.header.slot then
      false
    else
      true
  }

  /** A proposal whose parent is the genesis block is never acceptable, whatever precedes it. */
  lemma GenesisParentRejected(genesis: Hash, proposal: BlockProposal, previous: BlockProposal)
    requires proposal.block.header.previous == genesis
    ensures !CheckProposal(genesis, proposal, previous)
  {
  }

  /** Every adjacent pair of the sequence passes CheckProposal. */
  ghost predicate ChainChecked(genesis: Hash, proposals: seq<BlockProposal>)
  {
    forall k :: 0 < k < |proposals| ==> CheckProposal(genesis, proposals[k], proposals[k - 1])
  }

  /** Along a checked chain slots strictly increase, between any two positions. */
  lemma {:induction false} CheckedChainSlotsIncrease(genesis: Hash, proposals: seq<BlockProposal>, i: nat, j: nat)
    requires ChainChecked(genesis, proposals)
    requires i < j < |proposals|
    ensures proposals[i].block.header.slot < proposals[j].block.header.slot
    decreases j - i
  {
    assert CheckProposal(genesis, proposals[j], proposals[j - 1]);
    if i < j - 1 {
      CheckedChainSlotsIncrease(genesis, proposals, i, j - 1);
    }
  }

  /** Along a checked chain no proposal after the first names the genesis block as parent, and each names its predecessor. */
  lemma CheckedChainLinks(genesis: Hash, proposals: seq<BlockProposal>, k: nat)
    requires ChainChecked(genesis, proposals)
    requires 0 < k < |proposals|
    ensures proposals[k].block.header.previous != genesis
    ensures proposals[k].block.header.previous == HeaderHash(proposals[k - 1].block.header)
  {
    assert CheckProposal(genesis, proposals[k], proposals[k - 1]);
  }

  /** Lowering one slot to at most its predecessor's makes the chain fail the check. */
  lemma LoweredSlotBreaksChain(genesis: Hash, proposals: seq<BlockProposal>, k: nat)
    requires 0 < k < |proposals|
    requires proposals[k].block.header.slot <= proposals[k - 1].block.header.slot
    ensures !ChainChecked(genesis, proposals)
  {
    assert !CheckProposal(genesis, proposals[k], proposals[k - 1]);
  }

  /** Appending a proposal that passes the check against the tail keeps a checked chain checked. */
  lemma ExtendCheckedChain(genesis: Hash, proposals: seq<BlockProposal>, proposal: BlockProposal)
    requires |proposals| > 0
    requires ChainChecked(genesis, proposals)
    requires CheckProposal(genesis, proposal, proposals[|proposals| - 1])
    ensures ChainChecked(genesis, proposals + [proposal])
  {
    var extended := proposals + [proposal];
    forall k | 0 < k < |extended|
      ensures CheckProposal(genesis, extended[k], extended[k - 1])
    {
      if k < |proposals| {
        assert extended[k] == proposals[k] && extended[k - 1] == proposals[k - 1];
      }
    }
  }

  /** A sequence of block proposals sharing one genesis block. */
  class ProposalChain {
    const genesisBlock: Hash
    var proposals: seq<BlockProposal>

    /** The chain is never empty: it starts with one proposal and `Add` never removes any. */
    ghost predicate Valid()
      reads this
    {
      |proposals| > 0
    }

    /** ProposalChain::new. */
    constructor (genesisBlock: Hash, initialProposal: BlockProposal)
      ensures Valid()
      ensures this.genesisBlock == genesisBlock
      ensures proposals == [initialProposal]
    {
      this.genesisBlock := genesisBlock;
      proposals := [initialProposal];
    }

    /** ProposalChain::check_chain: a loop over every proposal after the first, with early exit. */
    method CheckChain() returns (ok: bool)
      requires Valid()
      ensures ok <==> ChainChecked(genesisBlock, proposals)
    {
      var index := 0;
      while index < |proposals| - 1
        invariant 0 <= index <= |proposals| - 1
        invariant forall k :: 0 < k <= index ==> CheckProposal(genesisBlock, proposals[k], proposals[k - 1])
      {
        if !CheckProposal(genesisBlock, proposals[index + 1], proposals[index]) {
          return false;
        }
        index := index + 1;
      }
      return true;
    }

    /** ProposalChain::add: append when valid against the tail, otherwise leave the chain as it is. */
    method Add(proposal: BlockProposal)
      requires Valid()
      modifies this
      ensures Valid()
      ensures CheckProposal(genesisBlock, proposal, old(proposals[|proposals| - 1])) ==>
        proposals == old(proposals) + [proposal]
      ensures !CheckProposal(genesisBlock, proposal, old(proposals[|proposals| - 1])) ==>
        proposals == old(proposals)
      ensures ChainChecked(genesisBlock, old(proposals)) ==> ChainChecked(genesisBlock, proposals)
    {
      if CheckProposal(genesisBlock, proposal, proposals[|proposals| - 1]) {
        if ChainChecked(genesisBlock, proposals) {
          ExtendCheckedChain(genesisBlock, proposals, proposal);
        }
        proposals := proposals + [proposal];
      }
    }
  }

  /**
   * A client of ProposalChain: a correctly linked proposal with a later
   * slot grows the chain by one, and one naming another parent is dropped.
   */
  method AddScenario(genesis: Hash, initial: BlockProposal, next: BlockProposal, stray: BlockProposal)
    requires next.block.header.previous == HeaderHash(initial.block.header) != genesis
    requires next.block.header.slot > initial.block.header.slot
    requires stray.block.header.previous != HeaderHash(next.block.header)
  {
    var chain := new ProposalChain(genesis, initial);
    var ok := chain.CheckChain();
    assert ok;
    chain.Add(next);
    assert chain.proposals == [initial, next];
    chain.Add(stray);
    assert chain.proposals == [initial, next];
    ok := chain.CheckChain();
    assert ok;
  }
}
