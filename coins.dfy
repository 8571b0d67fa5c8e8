/**
 * The slot lottery of the Crypsinous research playground
 * (script/research/crypsinous_playground/src/coins.rs): the secret-key
 * chain of an epoch, the per-slot lottery coins minted from owned stake,
 * the domain-separated election seeds, and the leader check of one slot.
 * Randomness (thread_rng, Scalar::random) is passed in as parameters.
 */
module Coins {
  import opened Primitives

  // Epoch configuration.
  const EPOCH_LENGTH: u64 := 10
  const REWARD: u64 := 420
  const LOTTERY_HEAD_START: u64 := 1
  const PRF_NULLIFIER_PREFIX: u64 := 0

  // Domain-separation tags of the two election seeds.
  const ELECTION_SEED_NONCE: Fp := 3
  const ELECTION_SEED_LEAD: Fp := 22

  /** The spending note of an owned coin; only its value matters to the lottery. */
  datatype Note = Note(value: u64)

  /** A coin the wallet owns (OwnCoin), only read here. */
  datatype OwnCoin = OwnCoin(note: Note)

  datatype Keypair = Keypair(secret: Fp, public: Point)

  /** One lottery ticket for one slot. */
  datatype LeadCoin = LeadCoin(
    value: u64,
    cm: Point,
    cm2: Point,
    idx: u32,
    sl: Fp,
    tau: Fp,
    nonce: Fp,
    nonceCm: Fp,
    sn: Fp,
    keypair: Keypair,
    rootCm: Scalar,
    rootSk: Fp,
    path: AuthPath,
    pathSk: AuthPath,
    c1Blind: Scalar,
    c2Blind: Scalar,
    yMu: Fp,
    rhoMu: Fp,
    sigma1: Fp,
    sigma2: Fp)

  /**
   * total_stake: the reward of every slot elapsed up to and including
   * `slot` of `epoch`. The source computes in u64; the requires excludes
   * the overflow.
   */
  function TotalStake(epoch: u64, slot: u64): (stake: u64)
    requires (epoch * EPOCH_LENGTH + slot + 1) * REWARD <= U64_MAX
    ensures stake >= REWARD
    ensures stake % REWARD == 0 && stake / REWARD == epoch * EPOCH_LENGTH + slot + 1
  {
    (epoch * EPOCH_LENGTH + slot + 1) * REWARD
  }

  /** One more slot adds exactly one reward. */
  lemma TotalStakeNextSlot(epoch: u64, slot: u64)
    requires (epoch * EPOCH_LENGTH + slot + 2) * REWARD <= U64_MAX
    ensures slot + 1 <= U64_MAX
    ensures TotalStake(epoch, slot + 1) == TotalStake(epoch, slot) + REWARD
  {
  }

  /** One more epoch adds the rewards of a whole epoch. */
  lemma TotalStakeNextEpoch(epoch: u64, slot: u64)
    requires ((epoch + 1) * EPOCH_LENGTH + slot + 1) * REWARD <= U64_MAX
    ensures epoch + 1 <= U64_MAX
    ensures TotalStake(epoch + 1, slot) == TotalStake(epoch, slot) + EPOCH_LENGTH * REWARD
  {
  }

  // ---------------------------------------------------------------------------
  // The secret-key chain (create_coins_sks)

  /** The key derivation step: hash of the coordinates of a Pedersen commitment to 1. */
  function DeriveSecretKey(blind: Scalar): Fp
  {
    var (x, y) := Coordinates(PedersenU64(1, blind));
    Poseidon([x, y])
  }

  /** The secret key of slot `i`: slot 0 from a random scalar, every later one from its predecessor. */
  function SecretKeyAt(sk0Blind: Scalar, i: nat): Fp
  {
    if i == 0 then DeriveSecretKey(sk0Blind) else DeriveSecretKey(ModRP(SecretKeyAt(sk0Blind, i - 1)))
  }

  /** The first `n` secret keys of the chain. */
  function SecretKeys(sk0Blind: Scalar, n: nat): (sks: seq<Fp>)
    ensures |sks| == n
    ensures forall i :: 0 <= i < n ==> sks[i] == SecretKeyAt(sk0Blind, i)
  {
    seq(n, i requires 0 <= i => SecretKeyAt(sk0Blind, i))
  }

  /** The Merkle leaves of a list of secret keys. */
  function SkLeaves(sks: seq<Fp>): (leaves: seq<MerkleNode>)
    ensures |leaves| == |sks|
    ensures forall i :: 0 <= i < |sks| ==> leaves[i] == MerkleNode(sks[i])
  {
    seq(|sks|, i requires 0 <= i < |sks| => MerkleNode(sks[i]))
  }

  /** The root recorded for slot `i`: that of the tree right after its key was appended. */
  function SlotRoot(sk0Blind: Scalar, i: nat): MerkleNode
  {
    TreeRoot(SkLeaves(SecretKeys(sk0Blind, i + 1)))
  }

  /** The authentication path recorded for slot `i`, against SlotRoot of the same slot. */
  function SlotPath(sk0Blind: Scalar, i: nat): AuthPath
  {
    TreeAuthPath(SkLeaves(SecretKeys(sk0Blind, i + 1)), i)
  }

  /**
   * create_coins_sks: the secret keys of an epoch, each with the Merkle
   * root and authentication path captured right after its insertion.
   */
  method CreateCoinsSks(sk0Blind: Scalar) returns (sks: seq<Fp>, rootSks: seq<MerkleNode>, pathSks: seq<AuthPath>)
    ensures |sks| == EPOCH_LENGTH && |rootSks| == EPOCH_LENGTH && |pathSks| == EPOCH_LENGTH
    ensures sks[0] == DeriveSecretKey(sk0Blind)
    ensures forall i :: 0 < i < |sks| ==> sks[i] == DeriveSecretKey(ModRP(sks[i - 1]))
    ensures sks == SecretKeys(sk0Blind, EPOCH_LENGTH)
    ensures forall i :: 0 <= i < |sks| ==> rootSks[i] == TreeRoot(SkLeaves(sks[..i + 1]))
    ensures forall i :: 0 <= i < |sks| ==> pathSks[i] == TreeAuthPath(SkLeaves(sks[..i + 1]), i)
    ensures forall i :: 0 <= i < |sks| ==> rootSks[i] == SlotRoot(sk0Blind, i) && pathSks[i] == SlotPath(sk0Blind, i)
  {
    var tree: seq<MerkleNode> := [];
    sks, rootSks, pathSks := [], [], [];
    var prevSkBase: Fp := 1;
    var i := 0;
    while i < EPOCH_LENGTH
      invariant 0 <= i <= EPOCH_LENGTH
      invariant |sks| == i && |rootSks| == i && |pathSks| == i
      invariant sks == SecretKeys(sk0Blind, i)
      invariant tree == SkLeaves(sks)
      invariant i > 0 ==> prevSkBase == sks[i - 1]
      invariant forall k :: 0 <= k < i ==> rootSks[k] == SlotRoot(sk0Blind, k) && pathSks[k] == SlotPath(sk0Blind, k)
    {
      var base := if i == 0 then PedersenU64(1, sk0Blind) else PedersenU64(1, ModRP(prevSkBase));
      var (skX, skY) := Coordinates(base);
      var skBase := Poseidon([skX, skY]);
      assert skBase == SecretKeyAt(sk0Blind, i);
      sks := sks + [skBase];
      prevSkBase := skBase;
      assert sks == SecretKeys(sk0Blind, i + 1);
      tree := tree + [MerkleNode(skBase)];
      assert tree == SkLeaves(sks);
      var leafPosition := |tree| - 1;
      var root := TreeRoot(tree);
      var path := TreeAuthPath(tree, leafPosition);
      rootSks := rootSks + [root];
      pathSks := pathSks + [path];
      i := i + 1;
    }
    forall i | 0 <= i < |sks|
      ensures rootSks[i] == TreeRoot(SkLeaves(sks[..i + 1]))
      ensures pathSks[i] == TreeAuthPath(SkLeaves(sks[..i + 1]), i)
    {
      SecretKeysPrefix(sk0Blind, EPOCH_LENGTH, i + 1);
    }
  }

  /** A prefix of the key chain is the shorter key chain. */
  lemma SecretKeysPrefix(sk0Blind: Scalar, n: nat, m: nat)
    requires m <= n
    ensures SecretKeys(sk0Blind, n)[..m] == SecretKeys(sk0Blind, m)
  {
  }

  // ---------------------------------------------------------------------------
  // Election seeds and lead coins (create_coins_election_seeds, create_leadcoin)

  /** create_coins_election_seeds: the lead seed y_mu first, the nonce seed rho_mu second. */
  function ElectionSeeds(eta: Fp, slot: Fp): (seeds: (Fp, Fp))
    ensures seeds.0 == Poseidon([ELECTION_SEED_LEAD, eta, slot])
    ensures seeds.1 == Poseidon([ELECTION_SEED_NONCE, eta, slot])
  {
    var nonceMu := Poseidon([ELECTION_SEED_NONCE, eta, slot]);
    var leadMu := Poseidon([ELECTION_SEED_LEAD, eta, slot]);
    (leadMu, nonceMu)
  }

  /** The message a coin commitment hides: prefix, public key coordinates, value, nonce, 1. */
  function CoinCommitInput(pk: Point, value: u64, nonce: Fp): (msg: seq<Fp>)
    ensures |msg| == 6
  {
    var (pkX, pkY) := Coordinates(pk);
    [FpFromU64(PRF_NULLIFIER_PREFIX), pkX, pkY, FpFromU64(value), nonce, 1]
  }

  /** The two commitment messages of a coin differ at most in the nonce, and there only when the nonces differ. */
  lemma CommitInputsDifferOnlyInNonce(pk: Point, value: u64, nonce: Fp, nonce2: Fp, k: nat)
    requires k < 6 && k != 4
    ensures CoinCommitInput(pk, value, nonce)[k] == CoinCommitInput(pk, value, nonce2)[k]
    ensures CoinCommitInput(pk, value, nonce) == CoinCommitInput(pk, value, nonce2) <==> nonce == nonce2
  {
    assert CoinCommitInput(pk, value, nonce)[4] == nonce;
    assert CoinCommitInput(pk, value, nonce2)[4] == nonce2;
  }

  /** The leaf a commitment contributes to its coin's own Merkle tree. */
  function CommitmentLeaf(cm: Point): MerkleNode
  {
    var (x, y) := Coordinates(cm);
    MerkleNode(FpMul(x, y))
  }

  /**
   * create_leadcoin (field assignment): the coin of slot `i` for one unit
   * of stake, with its two commitments and election seeds. The source
   * converts `i` to u32 and panics above u32::MAX.
   */
  function CreateLeadCoin(eta: Fp, sigma1: Fp, sigma2: Fp, value: u64, i: u64, cRootSk: MerkleNode,
                          cPathSk: AuthPath, seed: u64, sk: Fp, cm1Blind: Scalar, cm2Blind: Scalar): (coin: LeadCoin)
    requires i <= U32_MAX
    ensures coin.value == value && coin.idx == i && coin.sl == i && coin.tau == i
    ensures coin.sigma1 == sigma1 && coin.sigma2 == sigma2
    ensures coin.rootSk == cRootSk.inner && coin.pathSk == cPathSk && coin.nonce == seed
    ensures coin.keypair == Keypair(sk, PublicKeyOf(sk))
    ensures coin.sn == coin.nonceCm == Poseidon([coin.nonce, coin.rootSk])
    ensures coin.cm == PedersenBase(Poseidon(CoinCommitInput(coin.keypair.public, value, coin.nonce)), cm1Blind)
    ensures coin.cm2 == PedersenBase(Poseidon(CoinCommitInput(coin.keypair.public, value, coin.nonceCm)), cm2Blind)
    ensures coin.rootCm == ModRP(TreeRoot([CommitmentLeaf(coin.cm)]).inner)
    ensures coin.path == TreeAuthPath([CommitmentLeaf(coin.cm)], 0)
    ensures coin.c1Blind == cm1Blind && coin.c2Blind == cm2Blind
    ensures (coin.yMu, coin.rhoMu) == ElectionSeeds(eta, i)
  {
    var keypair := Keypair(sk, PublicKeyOf(sk));
    var cSl: Fp := i;
    var cTau: Fp := i;
    var cSeed := FpFromU64(seed);
    var cSn := Poseidon([cSeed, cRootSk.inner]);
    var cCm := PedersenBase(Poseidon(CoinCommitInput(keypair.public, value, cSeed)), cm1Blind);
    var treeCm := [CommitmentLeaf(cCm)];
    var cRootCm := TreeRoot(treeCm);
    var cCmPath := TreeAuthPath(treeCm, |treeCm| - 1);
    var cSeed2 := Poseidon([cSeed, cRootSk.inner]);
    var cCm2 := PedersenBase(Poseidon(CoinCommitInput(keypair.public, value, cSeed2)), cm2Blind);
    var (yMu, rhoMu) := ElectionSeeds(eta, cSl);
    LeadCoin(value, cCm, cCm2, i, cSl, cTau, cSeed, cSeed2, cSn, keypair, ModRP(cRootCm.inner),
             cRootSk.inner, cCmPath, cPathSk, cm1Blind, cm2Blind, yMu, rhoMu, sigma1, sigma2)
  }

  // ---------------------------------------------------------------------------
  // The coin matrix of an epoch (create_coins)

  /** How many coins every slot row holds: one per owned coin, or a single head-start coin. */
  function RowLength(owned: seq<OwnCoin>): nat
  {
    if |owned| > 0 then |owned| else 1
  }

  /** The stake value of coin `j` of a row. */
  function CoinValue(owned: seq<OwnCoin>, j: nat): u64
    requires j < RowLength(owned)
  {
    if |owned| > 0 then owned[j].note.value else LOTTERY_HEAD_START
  }

  /**
   * The randomness one call of create_coins draws: the per-slot nonces,
   * the random scalar the key chain starts from, and the two commitment
   * blinds of coin `j` of slot `i` as `blinds(i, j)`.
   */
  datatype EpochRandomness = EpochRandomness(seeds: seq<u64>, sk0Blind: Scalar, blinds: (nat, nat) -> (Scalar, Scalar))

  /** The coin create_coins mints as coin `j` of slot `i`. */
  function EpochCoin(eta: Fp, owned: seq<OwnCoin>, sigma1: Fp, sigma2: Fp, rand: EpochRandomness, i: nat, j: nat): LeadCoin
    requires |rand.seeds| == EPOCH_LENGTH && i < EPOCH_LENGTH && j < RowLength(owned)
  {
    CreateLeadCoin(eta, sigma1, sigma2, CoinValue(owned, j), i, SlotRoot(rand.sk0Blind, i), SlotPath(rand.sk0Blind, i),
                   rand.seeds[i], SecretKeyAt(rand.sk0Blind, i), rand.blinds(i, j).0, rand.blinds(i, j).1)
  }

  /**
   * Coin `j` of slot `i` stakes owned coin `j` (or the head start), is
   * stamped with slot `i`, and carries slot `i`'s key-chain root, path, key
   * and seed together with slot `i`'s election seeds.
   */
  lemma EpochCoinFields(eta: Fp, owned: seq<OwnCoin>, sigma1: Fp, sigma2: Fp, rand: EpochRandomness, i: nat, j: nat)
    requires |rand.seeds| == EPOCH_LENGTH && i < EPOCH_LENGTH && j < RowLength(owned)
    ensures var coin := EpochCoin(eta, owned, sigma1, sigma2, rand, i, j);
      && coin.value == CoinValue(owned, j)
      && coin.idx == i && coin.sl == i && coin.tau == i
      && coin.sigma1 == sigma1 && coin.sigma2 == sigma2
      && coin.rootSk == SlotRoot(rand.sk0Blind, i).inner && coin.pathSk == SlotPath(rand.sk0Blind, i)
      && coin.nonce == rand.seeds[i] && coin.keypair.secret == SecretKeyAt(rand.sk0Blind, i)
      && (coin.yMu, coin.rhoMu) == ElectionSeeds(eta, i)
  {
  }

  /** `row` holds exactly the coins create_coins mints for slot `i`. */
  ghost predicate IsEpochRow(eta: Fp, owned: seq<OwnCoin>, sigma1: Fp, sigma2: Fp, rand: EpochRandomness, i: nat,
                             row: seq<LeadCoin>)
    requires |rand.seeds| == EPOCH_LENGTH && i < EPOCH_LENGTH
  {
    && |row| == RowLength(owned)
    && forall j :: 0 <= j < |row| ==> row[j] == EpochCoin(eta, owned, sigma1, sigma2, rand, i, j)
  }

  /** create_coins: one row per slot of the epoch, in slot order. */
  method CreateCoins(eta: Fp, owned: seq<OwnCoin>, sigma1: Fp, sigma2: Fp, rand: EpochRandomness)
    returns (coins: seq<seq<LeadCoin>>)
    requires |rand.seeds| == EPOCH_LENGTH
    ensures |coins| == EPOCH_LENGTH
    ensures forall i :: 0 <= i < |coins| ==> |coins[i]| == RowLength(owned)
    ensures forall i, j :: 0 <= i < |coins| && 0 <= j < |coins[i]| ==>
      coins[i][j] == EpochCoin(eta, owned, sigma1, sigma2, rand, i, j)
  {
    var seeds := rand.seeds;
    var sks, rootSks, pathSks := CreateCoinsSks(rand.sk0Blind);
    coins := [];
    var i := 0;
    while i < EPOCH_LENGTH
      invariant 0 <= i <= EPOCH_LENGTH && |coins| == i
      invariant forall k :: 0 <= k < i ==> IsEpochRow(eta, owned, sigma1, sigma2, rand, k, coins[k])
    {
      assert sks[i] == SecretKeyAt(rand.sk0Blind, i);
      assert rootSks[i] == SlotRoot(rand.sk0Blind, i) && pathSks[i] == SlotPath(rand.sk0Blind, i);
      if |owned| > 0 {
        // Use existing stake: one coin per owned coin.
        var slotCoins: seq<LeadCoin> := [];
        var j := 0;
        while j < |owned|
          invariant 0 <= j <= |owned| && |slotCoins| == j
          invariant forall m :: 0 <= m < j ==> slotCoins[m] == EpochCoin(eta, owned, sigma1, sigma2, rand, i, m)
        {
          var (cm1Blind, cm2Blind) := rand.blinds(i, j);
          var coin := CreateLeadCoin(eta, sigma1, sigma2, owned[j].note.value, i, rootSks[i], pathSks[i],
                                     seeds[i], sks[i], cm1Blind, cm2Blind);
          assert coin == EpochCoin(eta, owned, sigma1, sigma2, rand, i, j);
          slotCoins := slotCoins + [coin];
          j := j + 1;
        }
        assert IsEpochRow(eta, owned, sigma1, sigma2, rand, i, slotCoins);
        coins := coins + [slotCoins];
      } else {
        // Compete with zero stake.
        var (cm1Blind, cm2Blind) := rand.blinds(i, 0);
        var coin := CreateLeadCoin(eta, sigma1, sigma2, LOTTERY_HEAD_START, i, rootSks[i], pathSks[i],
                                   seeds[i], sks[i], cm1Blind, cm2Blind);
        assert coin == EpochCoin(eta, owned, sigma1, sigma2, rand, i, 0);
        assert IsEpochRow(eta, owned, sigma1, sigma2, rand, i, [coin]);
        coins := coins + [[coin]];
      }
      i := i + 1;
    }
  }

  // ---------------------------------------------------------------------------
  // The leader check (is_leader)

  /** The lottery output of a coin: a hash of a commitment to its lead seed, keyed by its secret-key root and nonce. */
  function LotteryOutput(coin: LeadCoin): Fp
  {
    var exp := Poseidon([coin.rootSk, coin.nonce]);
    var (x, y) := Coordinates(PedersenBase(coin.yMu, ModRP(exp)));
    Poseidon([x, y])
  }

  /** The winning threshold sigma1·v + sigma2·v·v, computed in the field. */
  function LotteryTarget(coin: LeadCoin): Fp
  {
    var v := FpFromU64(coin.value);
    FpAdd(FpMul(coin.sigma1, v), FpMul(FpMul(coin.sigma2, v), v))
  }

  /** A coin wins its slot when its output is below its threshold. */
  predicate Wins(coin: LeadCoin)
  {
    LotteryOutput(coin) < LotteryTarget(coin)
  }

  /** A coin of value 0 has threshold 0, so it can never win. */
  lemma ZeroValueNeverWins(coin: LeadCoin)
    requires coin.value == 0
    ensures !Wins(coin)
  {
    assert LotteryTarget(coin) == 0;
  }

  /** Every winning coin has a positive value. */
  lemma WinnerHasPositiveValue(coin: LeadCoin)
    requires Wins(coin)
    ensures coin.value > 0
  {
    if coin.value == 0 {
      ZeroValueNeverWins(coin);
    }
  }

  /**
   * is_leader: whether any coin of the slot wins, and the index of the
   * first winning coin of greatest value (0 when nothing wins). The source
   * asserts that the slot exists.
   */
  method IsLeader(slot: u64, epochCoins: seq<seq<LeadCoin>>) returns (won: bool, highestStakeIdx: nat)
    requires slot < |epochCoins|
    ensures won <==> exists j :: 0 <= j < |epochCoins[slot]| && Wins(epochCoins[slot][j])
    ensures won ==>
      var row := epochCoins[slot];
      && highestStakeIdx < |row|
      && Wins(row[highestStakeIdx])
      && (forall j :: 0 <= j < |row| && Wins(row[j]) ==> row[j].value <= row[highestStakeIdx].value)
      && (forall j :: 0 <= j < highestStakeIdx && Wins(row[j]) ==> row[j].value < row[highestStakeIdx].value)
    ensures !won ==> highestStakeIdx == 0
  {
    var competingCoins := epochCoins[slot];
    won := false;
    var highestStake: u64 := 0;
    highestStakeIdx := 0;
    var winningIdx := 0;
    while winningIdx < |competingCoins|
      invariant 0 <= winningIdx <= |competingCoins|
      invariant !won ==> forall j :: 0 <= j < winningIdx ==> !Wins(competingCoins[j])
      invariant won <==> highestStake > 0
      invariant forall j :: 0 <= j < winningIdx && Wins(competingCoins[j]) ==> competingCoins[j].value <= highestStake
      invariant !won ==> highestStakeIdx == 0
      invariant won ==>
        && highestStakeIdx < winningIdx
        && Wins(competingCoins[highestStakeIdx])
        && competingCoins[highestStakeIdx].value == highestStake
        && (forall j :: 0 <= j < highestStakeIdx && Wins(competingCoins[j]) ==> competingCoins[j].value < highestStake)
    {
      var coin := competingCoins[winningIdx];
      var y := LotteryOutput(coin);
      var targetBase := LotteryTarget(coin);
      if y < targetBase {
        WinnerHasPositiveValue(coin);
        won := true;
        if coin.value > highestStake {
          highestStake := coin.value;
          highestStakeIdx := winningIdx;
        }
      }
      winningIdx := winningIdx + 1;
    }
  }

  /** Of two winning coins of values 10 and 20 in one slot, the value-20 coin is selected. */
  method IsLeaderScenario(small: LeadCoin, large: LeadCoin)
    requires small.value == 10 && large.value == 20
  {
    if Wins(small) && Wins(large) {
      var row := [small, large];
      var epoch := [row];
      assert epoch[0] == row && row[0] == small && row[1] == large;
      var won, idx := IsLeader(0, epoch);
      assert won by {
        assert 0 <= 1 < |epoch[0]| && Wins(epoch[0][1]);
      }
      assert idx < 2 && epoch[0][idx].value >= 20 by {
        assert 0 <= 1 < |epoch[0]| && Wins(epoch[0][1]);
      }
      assert won && idx == 1;
    }
  }

  /** One owned coin of value 420 gives ten rows holding one coin of value 420 each. */
  method CreateCoinsScenario(eta: Fp, sigma1: Fp, sigma2: Fp, rand: EpochRandomness)
    requires |rand.seeds| == EPOCH_LENGTH
  {
    var owned := [OwnCoin(Note(420))];
    var coins: seq<seq<LeadCoin>> := CreateCoins(eta, owned, sigma1, sigma2, rand);
    assert |coins| == 10;
    assert forall i: nat :: i < 10 ==> |coins[i]| == 1 && coins[i][0].value == 420 && coins[i][0].idx == i;
  }
}
