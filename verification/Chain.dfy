/** What the translation reads: transactions, the ledger effects (utxo
    operations) the chain recorded for them, and the network parameters. */
module Chain {
  import opened ByteStrings
  import opened Keys
  import opened IndexState

  /** Hexadecimal text and the like: one byte per character. */
  type Ascii = s: string | forall i :: 0 <= i < |s| ==> s[i] as int < 128

  datatype UtxoKey = UtxoKey(txid: Bytes, index: nat)

  datatype UtxoEntry = UtxoEntry(key: UtxoKey, owner: Bytes, amount: UInt64)

  datatype TxOutput = TxOutput(pk: Bytes, amount: UInt64)

  datatype Royalty = Royalty(pk: Bytes, amount: UInt64)

  /** Amounts that the chain keeps in 256 bits are unbounded here. */
  datatype LockedStakeEntry = LockedStakeEntry(staker: Bytes, validator: Bytes, epoch: UInt64, amount: nat)

  /** The fields of a utxo operation that its type makes meaningful. An added
      entry is absent when the entry or its key is nil. */
  datatype UtxoOp =
    | SpendUtxo(spent: UtxoEntry)
    | AddUtxo(added: Option<UtxoEntry>)
    | SpendBalance(pk: Bytes, amount: UInt64)
    | AddBalance(pk: Bytes, amount: UInt64)
    | PayToBalance(pk: Bytes, amount: UInt64)
    | Restake(restaked: Bytes, amount: UInt64)
    | CreatorCoinOp(lockedDiff: int)
    | SwapIdentityOp(fromLocked: UInt64, toLocked: UInt64)
    | AcceptNFTBidOp(creator: Bytes, bidder: Bytes, creatorRoyalty: UInt64, circulation: nat, royalties: seq<Royalty>)
    | NFTBidOp(creator: Bytes, creatorRoyalty: UInt64, prevCirculation: Option<nat>, royalties: seq<Royalty>)
    | UpdateProfileOp(clobbered: UInt64)
    | StakeOp(stakedTo: Option<Bytes>)
    | UnstakeOp(unstakedFrom: Option<Bytes>, prevStakers: seq<Bytes>, epoch: UInt64)
    | UnlockStakeOp(prevLocked: seq<LockedStakeEntry>)
    | AtomicWrapperOp(inner: seq<OpList>)
    | OtherOp

  /** The effects recorded for one transaction. */
  datatype OpList = OpList(ops: seq<UtxoOp>)

  datatype CoinTrade = Buy | Sell | OtherTrade

  datatype BidderInput = BidderInput(transactor: Bytes, inputs: seq<UtxoKey>)

  /** Transaction metadata; a nil stake or unstake record is None. */
  datatype Meta =
    | AtomicWrapper(txns: seq<Txn>)
    | CreatorCoinTxn(profile: Bytes, trade: CoinTrade)
    | SwapIdentity(from: Bytes, to: Bytes)
    | AcceptNFTBid(bidderInputs: seq<UtxoKey>)
    | NFTBid
    | UpdateProfile
    | DAOCoinLimitOrder(bidders: seq<BidderInput>)
    | Stake(staked: Option<nat>)
    | Unstake(unstaked: Option<nat>)
    | UnlockStake
    | OtherMeta

  datatype Txn = Txn(hash: string, pk: Bytes, inputs: seq<UtxoKey>, outputs: seq<TxOutput>, meta: Meta)

  /** utxoOps holds one list per transaction, plus one block-level list after
      the last epoch block of the proof-of-stake protocol. */
  datatype Block = Block(height: UInt64, hash: Ascii, txns: seq<Txn>, utxoOps: seq<OpList>)

  /** Network parameters and the library functions that stay uninterpreted:
      Base58Check on keys, its decoder, the double hash and hexadecimal text. */
  datatype Params = Params(base58: Bytes -> string, decodeKey: string -> Option<PublicKey>,
                           doubleHash: Bytes -> Bytes, hex: Bytes -> Ascii,
                           balanceModelHeight: nat, autoSellThreshold: nat, genesisOutputs: seq<TxOutput>)

  /** Base58Check decodes what it encodes. */
  ghost predicate Lawful(p: Params) {
    forall pk: PublicKey :: p.decodeKey(p.base58(pk)) == Some(pk)
  }

  predicate IsBalanceModel(p: Params, height: nat) {
    height >= p.balanceModelHeight
  }

  const ZERO_HASH: Bytes :=
    [0, 0, 0, 0, 0, 0, 0, 0, 0, 0, 0, 0, 0, 0, 0, 0, 0, 0, 0, 0, 0, 0, 0, 0, 0, 0, 0, 0, 0, 0, 0, 0]
}
