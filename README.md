# A verified model of darkfi's consensus core

This project models four sequential pieces of the darkfi node in Dafny and proves properties of them:

- **The block-proposal chain** (`src/consensus/block.rs`). A block has a header (version, parent hash, epoch, slot, timestamp, transaction-tree root) and comes in two forms. The pointer form (`Block`) keeps the header and the transactions only as blake3 hashes. The full form (`BlockInfo`) keeps them whole. A `BlockProposal` wraps the full form. Its equality looks only at the header and the transactions. A `ProposalChain` is a fork: a genesis block hash and a non-empty sequence of proposals. A proposal may follow another only if it names that proposal's header hash as its parent, has a strictly later slot, and does not name the genesis block as its parent. `add` appends a proposal that passes this check and silently ignores any other.
- **The slot lottery** of the Crypsinous research playground (`script/research/crypsinous_playground/src/coins.rs`). Each epoch has a forward chain of secret keys: key 0 comes from a random scalar, and key i is the Poseidon hash of the coordinates of a Pedersen commitment to 1 blinded with key i-1. Every key is appended to an incremental Merkle tree, and the root and authentication path are recorded at the moment of insertion. Each slot gets a row of lottery coins: one per owned coin, or a single head-start coin of value 1 when nothing is owned. Each coin carries domain-separated election seeds. `is_leader` decides whether any coin of a slot wins (`y < sigma1·v + sigma2·v²` in the Pallas base field) and picks the first winner of greatest value.
- **The free task-id search** of the task daemon (`bin/tau/taud/src/util.rs`). It returns the smallest positive id not yet in use.
- **The IRC client configuration** of the IRC daemon (`bin/ircd2/src/irc/mod.rs`, `IrcConfig::new`). It merges the autojoin channel names into the configured channel map and sets fixed registration defaults.

Files: `primitives.dfy` (shared integer widths, the Pallas base field, curve values and the primitives left uninterpreted), `block.dfy` (module `Consensus`), `coins.dfy` (module `Coins`), `free_id.dfy` (module `Taud`), `irc_config.dfy` (module `Irc`).

The cryptographic primitives are declared as module constants of function type with no definition. These are blake3, the canonical serialization, Poseidon, Pedersen commitments, affine coordinates, `mod_r_p`, public-key derivation, and the Merkle root and authentication path of a tree with given leaves. Nothing is assumed about them, not even injectivity, so every proved property holds for any choice of these functions. Randomness (`thread_rng`, `Scalar::random`) and the clock (`Timestamp::current_time`) are passed in as parameters. `ProposalChain` is a class because `add` pushes onto its proposal vector in place. The loops of `check_chain`, `create_coins_sks`, `create_coins`, `is_leader`, `find_free_id` and `IrcConfig::new` are `while` loops with invariants.

Two details of the coin code that the model follows exactly:

- In `create_leadcoin` the coin's `nonce` is the raw per-slot seed. `Poseidon(seed, root_sk)` is stored as both `sn` and `nonce_cm`, and the second commitment is taken over it.
- `is_leader` starts from index 0 and stake 0 and replaces the best only on a strictly greater value. A coin of value 0 never wins, since its threshold is 0. So when `won` holds, the index is that of the first highest-value winner, and it is 0 otherwise.

## Model

| member | source | states |
|---|---|---|
| `Consensus.NewHeader` | src/consensus/block.rs:30-39 | the version is always `BLOCK_VERSION`; parent, epoch, slot, timestamp and root are stored exactly as given |
| `Consensus.GenesisHeader` | src/consensus/block.rs:42-47 | the genesis header has epoch 0, slot 0, the genesis data as parent, the given timestamp and the root of an empty tree |
| `Consensus.DefaultHeader` | src/consensus/block.rs:55-65 | the default header has the hash of the empty input as parent, epoch and slot 0, the current time and the zero root |
| `Consensus.HeaderHash` | src/consensus/block.rs:50-52 | definition: the header hash is blake3 of the header's canonical serialization, both left uninterpreted; its properties are stated by `NewBlockAgreesWithToBlock` and `ProposalEqSameHashes` |
| `Consensus.NewBlock` | src/consensus/block.rs:89-102 | a new block carries the magic bytes, the hash of the header built from its arguments at the current time, and the given transaction hashes and metadata |
| `Consensus.GenesisBlock` | src/consensus/block.rs:105-111 | the genesis block points to the hash of the genesis header, has no transactions and the default metadata |
| `Consensus.NewBlockInfo` | src/consensus/block.rs:161-164 | a full block carries the magic bytes and exactly the given header, transactions and metadata |
| `Consensus.DefaultBlockInfo` | src/consensus/block.rs:147-152 | the default full block has the default header, no transactions and the default metadata |
| `Consensus.TransactionHashes` | src/consensus/block.rs:175 | the hash list has one entry per transaction, entry i being the hash of the serialization of transaction i |
| `Consensus.ToBlock` | src/consensus/block.rs:173-183 | conversion keeps magic and metadata, replaces the header by its hash, and replaces transaction i by its hash, with the same number of transactions |
| `Consensus.ToBlockDependsOnHeaderAndTxs` | src/consensus/block.rs:173-183 | two full blocks with the same header and transactions convert to the same header hash and transaction hashes |
| `Consensus.BlockHash` | src/consensus/block.rs:114-116 | definition: the block hash is blake3 of the pointer form's canonical serialization, both left uninterpreted; its properties are stated by `NewBlockAgreesWithToBlock` |
| `Consensus.InfoBlockHash` | src/consensus/block.rs:167-170 | definition: the hash of a full block is the block hash of its pointer form (same magic and metadata, the header hash, and the transaction hashes in order); its properties are stated by `NewBlockAgreesWithToBlock` and `InfoBlockHashSeesOnlyHashes` |
| `Consensus.NewBlockAgreesWithToBlock` | src/consensus/block.rs:97-101 | building a pointer block with `Block::new` from the transaction hashes gives the same block, and so the same block hash, as converting the full block built from the same header fields, transactions and metadata |
| `Consensus.InfoBlockHashSeesOnlyHashes` | src/consensus/block.rs:167-182 | two full blocks with the same magic, metadata, header hash and transaction hashes have the same block hash |
| `Consensus.NewProposal` | src/consensus/block.rs:207-210 | a proposal wraps the full block built from its header, transactions and metadata |
| `Consensus.ProposalEq` | src/consensus/block.rs:213-217 | definition: two proposals are equal exactly when their headers and their transaction lists are equal; its properties are stated by the three `ProposalEq…` lemmas below |
| `Consensus.ProposalEqIgnoresMetadata` | src/consensus/block.rs:213-217 | proposals that differ only in metadata (or magic) are equal |
| `Consensus.ProposalEqIsEquivalence` | src/consensus/block.rs:213-217 | proposal equality is reflexive, symmetric and transitive |
| `Consensus.ProposalEqSameHashes` | src/consensus/block.rs:213-217 | equal proposals have the same header hash and transaction hashes in pointer form |
| `Consensus.CheckProposal` | src/consensus/block.rs:260-275 | a proposal is accepted after another exactly when its parent is not the genesis block, its parent is the other's header hash, and its slot is strictly greater |
| `Consensus.GenesisParentRejected` | src/consensus/block.rs:260-264 | a proposal naming the genesis block as parent is rejected whatever precedes it |
| `Consensus.CheckedChainSlotsIncrease` | src/consensus/block.rs:279-287 | along a checked chain the slot at any position is strictly smaller than at every later position |
| `Consensus.CheckedChainLinks` | src/consensus/block.rs:279-287 | along a checked chain every proposal after the first names its predecessor's header hash, and never the genesis block, as parent |
| `Consensus.LoweredSlotBreaksChain` | src/consensus/block.rs:279-287 | a sequence in which some slot is not above its predecessor's fails the chain check |
| `Consensus.ExtendCheckedChain` | src/consensus/block.rs:290-294 | appending a proposal accepted against the tail keeps a checked chain checked |
| `Consensus.ProposalChain.constructor` | src/consensus/block.rs:252-254 | a new chain holds exactly the initial proposal and the given genesis hash |
| `Consensus.ProposalChain.CheckChain` | src/consensus/block.rs:279-287 | the result is true exactly when every adjacent pair of the chain passes the proposal check |
| `Consensus.ProposalChain.Add` | src/consensus/block.rs:290-294 | an accepted proposal is appended, so the length grows by one, the earlier proposals stay unchanged and the new tail is the proposal; a rejected one leaves the chain unchanged; the chain stays non-empty and a checked chain stays checked |
| `Coins.TotalStake` | script/research/crypsinous_playground/src/coins.rs:49-51 | the total stake is the reward (420) times the number of slots up to and including this one, hence at least 420 |
| `Coins.TotalStakeNextSlot` | script/research/crypsinous_playground/src/coins.rs:49-51 | one more slot adds exactly one reward |
| `Coins.TotalStakeNextEpoch` | script/research/crypsinous_playground/src/coins.rs:49-51 | one more epoch adds the rewards of ten slots |
| `Coins.CreateCoinsSks` | script/research/crypsinous_playground/src/coins.rs:146-176 | ten keys, roots and paths; key 0 derives from the random scalar and key i from key i-1; root i and path i are those of the tree holding exactly keys 0..i, the snapshot right after leaf i is appended |
| `Coins.ElectionSeeds` | script/research/crypsinous_playground/src/coins.rs:272-287 | the lead seed (tag 22) comes first and the nonce seed (tag 3) second, both hashing the tag with eta and the slot |
| `Coins.CommitInputsDifferOnlyInNonce` | script/research/crypsinous_playground/src/coins.rs:219-242 | the two commitment messages of a coin agree everywhere except the nonce position, and are equal exactly when the nonces are |
| `Coins.CreateLeadCoin` | script/research/crypsinous_playground/src/coins.rs:179-270 | the coin carries the value, idx = sl = tau = slot index, the given sigmas, key-chain root and path, the seed as nonce, and the keypair of the slot key; `sn` equals `nonce_cm`, the Poseidon hash of nonce and root; the commitments hide the same message up to the nonce; the election seeds are those of the slot |
| `Coins.EpochCoinFields` | script/research/crypsinous_playground/src/coins.rs:97-133 | coin j of slot i has the value of owned coin j (or the head start 1 when nothing is owned), idx/sl/tau i, the given sigmas, the slot's key-chain root, path and key, and slot i's seed as nonce |
| `Coins.CreateCoins` | script/research/crypsinous_playground/src/coins.rs:86-136 | exactly ten rows in slot order; each row holds one coin per owned coin, or one head-start coin when nothing is owned; coin j of row i is the coin minted for slot i from owned coin j |
| `Coins.ZeroValueNeverWins` | script/research/crypsinous_playground/src/coins.rs:322-329 | a coin of value 0 has threshold 0 and never wins |
| `Coins.WinnerHasPositiveValue` | script/research/crypsinous_playground/src/coins.rs:322-335 | every winning coin has a positive value |
| `Coins.IsLeader` | script/research/crypsinous_playground/src/coins.rs:295-339 | requires the slot to exist; `won` holds exactly when some coin of the slot has output below threshold; then the index is that of a winner whose value is at least every winner's and strictly above every earlier winner's; otherwise the index is 0 |
| `Taud.FindFreeId` | bin/tau/taud/src/util.rs:1-8 | the result is positive, not in the list, every smaller positive id is in the list, and it is at most the list length plus one; the overflow outcome (None) happens exactly when every id below u32::MAX is taken, so never for a shorter list |
| `Irc.MergedChannels` | bin/ircd2/src/irc/mod.rs:44-50 | the merged map's keys are the configured channels plus the autojoin names; configured channels keep their settings; the other names get `ChannelInfo::new()` |
| `Irc.MergedChannelsStep` | bin/ircd2/src/irc/mod.rs:46-50 | processing one more autojoin name inserts it with default settings when absent and changes nothing otherwise |
| `Irc.DuplicateAutojoinHarmless` | bin/ircd2/src/irc/mod.rs:46-50 | repeating an autojoin name changes nothing |
| `Irc.MergedChannelsIdempotent` | bin/ircd2/src/irc/mod.rs:44-50 | merging the same autojoin list into an already merged map changes nothing |
| `Irc.NewIrcConfig` | bin/ircd2/src/irc/mod.rs:40-70 | always Ok; the channels are the merged map; the password is the configured one or empty; private key and contacts are copied; the capabilities are exactly no-history ↦ false; cap-end is set, the other flags are clear; the nickname is "anon" |

## Left out

- Sigma calibration (`create_epoch_coins`, `get_frequency`, coins.rs:41-82): it uses extended-precision decimals, `ln` and `powf`, and `fbig2base` is not part of this model. `sigma1` and `sigma2` are inputs.
- `generate_staking_coins` (coins.rs:342-363): it reads and writes the wallet database asynchronously.
- The internals of blake3, serialization, Poseidon, Pedersen commitments, affine coordinates, `mod_r_p`, key derivation and the BridgeTree Merkle accumulator are left uninterpreted. Properties that need collision resistance or one-wayness are not stated. These include forward secrecy of the key chain, hashes changing whenever a field changes, and the serialization round trip.
- Failure of the primitives' `unwrap`s is not modelled. The model treats them as total: coordinates of the identity point, tree roots and authentication paths, and leaf conversion.
- Every `LeadCoin` field except `idx` (a plain `u32`, coins.rs:251) is an `Option` in the source. `create_leadcoin` sets each of them to `Some`, so the model stores them directly, and the `Option` unwraps in `is_leader` cannot fail here.
- `BLOCK_VERSION`, `BLOCK_MAGIC_BYTES`, `Metadata::default()`, `MERKLE_DEPTH_ORCHARD` and `ChannelInfo::new()` are defined outside the modelled files (the consensus module root, the SDK constants and the IRC daemon's settings module are not part of this model), so they are uninterpreted constants. For `ChannelInfo::new()` this assumes it takes no input and always returns the same value.
- `Timestamp`, `Metadata`, `Transaction`, `ChannelInfo`, `ContactInfo` and `OwnCoin` are opaque values. Only the fields the modelled code reads are kept.
- `BlockOrder`, `BlockResponse`, the `net::Message` names, `Display` for `BlockProposal` and `From<BlockProposal> for BlockInfo` are left out. They are message plumbing, a formatter and a field projection.
- Concurrent access to a `ProposalChain` is left out (writes must be serialized by the caller).
- Logging (`info!`, `debug!`) is left out.
- Coins.CreateLeadCoin: requires the slot index to fit in a u32. The source converts it with `u32::try_from(i).unwrap()` and panics above u32::MAX; the panic is not modelled. Its only caller passes a slot index below 10.
- Coins.TotalStake: requires that the u64 computation does not overflow. The source would panic in a debug build or wrap around in a release build, and neither is modelled.
- Taud.FindFreeId: it models a debug build, where `for i in 1..` over u32 panics when the iterator would have to produce u32::MAX; that outcome is `None`. In a release build the iterator wraps around to 0 instead, which is not modelled.
- Coins.CreateCoins: the randomness is indexed by slot and coin (`blinds(i, j)`) rather than drawn from one stream in call order.
- The rest of the repository: the IRC server (TCP/TLS listeners, file reads, async channels), the tau CLI, network sessions, the node wiring example, the chat RPC, the replicated-log datastore, the nullifier wrapper and the halo2 Poseidon circuit.
