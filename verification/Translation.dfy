/** deso/block.go: which operations a transaction translates to. Operations are
    drafted without an index first; numbering is a separate step. */
module Translation {
  import opened ByteStrings
  import opened IndexState
  import opened Sums
  import opened Int64
  import opened Operations
  import opened Chain

  const CREATOR_COIN := "CREATOR_COIN"
  const VALIDATOR_ENTRY := "VALIDATOR_ENTRY"
  const LOCKED_STAKE_ENTRY := "LOCKED_STAKE_ENTRY"

  datatype Draft = Draft(account: Account, value: int, kind: OpType)

  function Number(ds: seq<Draft>, n: nat): (ops: seq<Op>)
    ensures |ops| == |ds|
    ensures forall k :: 0 <= k < |ds| ==> ops[k] == Op(n + k, ds[k].account, ds[k].value, ds[k].kind)
  {
    seq(|ds|, k requires 0 <= k < |ds| => Op(n + k, ds[k].account, ds[k].value, ds[k].kind))
  }

  // ---------------------------------------------------------------- accounts

  function MainAccount(p: Params, pk: Bytes): Account {
    Account(p.base58(pk), None)
  }

  function CreatorAccount(p: Params, pk: Bytes): Account {
    Account(p.base58(pk), Some(CREATOR_COIN))
  }

  function ValidatorAccount(p: Params, pkid: Bytes): Account {
    Account(p.base58(pkid), Some(VALIDATOR_ENTRY))
  }

  const DIGITS := "0123456789"

  function Decimal(n: nat): string {
    if n < 10 then [DIGITS[n]] else Decimal(n / 10) + [DIGITS[n % 10]]
  }

  function LockedStakeAccount(p: Params, staker: Bytes, validator: Bytes, epoch: nat): Account {
    Account(p.base58(staker), Some(LOCKED_STAKE_ENTRY + "-" + p.base58(validator) + "-" + Decimal(epoch)))
  }

  // ---------------------------------------------------------------- inputs and outputs

  function InputDraft(p: Params, pk: Bytes, spent: map<UtxoKey, UInt64>): UtxoKey -> seq<Draft> {
    (k: UtxoKey) => [Draft(MainAccount(p, pk), Negate64(if k in spent then spent[k] else 0), InputOp)]
  }

  function OutputDraft(p: Params): TxOutput -> seq<Draft> {
    (o: TxOutput) => [Draft(MainAccount(p, o.pk), o.amount, OutputOp)]
  }

  /** The first operation of a kind in a transaction's list. */
  function First(ops: seq<UtxoOp>, test: UtxoOp -> bool): (r: Option<UtxoOp>)
    ensures r.Some? ==> r.value in ops && test(r.value)
    ensures r.None? ==> forall o :: o in ops ==> !test(o)
  {
    if ops == [] then None
    else
      var r := First(ops[..|ops| - 1], test);
      if r.Some? then r else if test(ops[|ops| - 1]) then Some(ops[|ops| - 1]) else None
  }

  /** It is the first match, and there is one. */
  lemma {:induction false} FirstIsFirst(ops: seq<UtxoOp>, test: UtxoOp -> bool)
    ensures First(ops, test).Some? <==>
            exists i :: 0 <= i < |ops| && test(ops[i]) && First(ops, test) == Some(ops[i])
                        && forall j :: 0 <= j < i ==> !test(ops[j])
  {
    if ops != [] {
      var n, shorter := |ops| - 1, ops[..|ops| - 1];
      FirstIsFirst(shorter, test);
      if First(shorter, test).None? {
        forall j | 0 <= j < n ensures !test(ops[j]) {
          assert shorter[j] in shorter;
        }
      } else {
        var i :| 0 <= i < n && test(shorter[i]) && First(shorter, test) == Some(shorter[i])
                 && forall j :: 0 <= j < i ==> !test(shorter[j]);
        assert ops[i] == shorter[i] && forall j :: 0 <= j < i ==> ops[j] == shorter[j];
      }
    }
  }

  predicate IsCreatorCoin(o: UtxoOp) { o.CreatorCoinOp? }
  predicate IsSwapIdentity(o: UtxoOp) { o.SwapIdentityOp? }
  predicate IsAcceptNFTBid(o: UtxoOp) { o.AcceptNFTBidOp? }
  predicate IsNFTBid(o: UtxoOp) { o.NFTBidOp? }
  predicate IsUpdateProfile(o: UtxoOp) { o.UpdateProfileOp? }
  predicate IsAtomicWrapper(o: UtxoOp) { o.AtomicWrapperOp? }

  function Spends(k: UtxoKey): UtxoOp -> bool {
    (o: UtxoOp) => o.SpendUtxo? && o.spent.key == k
  }

  /** The amount of an input: from the genesis block for the zero hash, else
      from the transaction's own list. */
  function InputAmount(p: Params, k: UtxoKey, ops: seq<UtxoOp>): (r: Option<int>)
    ensures r.Some? ==> IsInt64(r.value)
  {
    if k.txid == ZERO_HASH then
      if k.index < |p.genesisOutputs| then Some(Negate64(p.genesisOutputs[k.index].amount)) else None
    else
      var o := First(ops, Spends(k));
      if o.Some? then Some(Negate64(o.value.spent.amount)) else None
  }

  /** Zero is 32 zero bytes; an input from there is a genesis output, any other the
      first spend of its key, and there is none exactly when there is no such thing. */
  lemma InputAmountIs(p: Params, k: UtxoKey, ops: seq<UtxoOp>)
    ensures k.txid == ZERO_HASH <==> |k.txid| == 32 && forall i :: 0 <= i < 32 ==> k.txid[i] == 0
    ensures k.txid == ZERO_HASH && k.index < |p.genesisOutputs| ==>
              InputAmount(p, k, ops) == Some(Negate64(p.genesisOutputs[k.index].amount))
    ensures k.txid != ZERO_HASH ==>
              forall i :: 0 <= i < |ops| && ops[i].SpendUtxo? && ops[i].spent.key == k
                          && (forall j :: 0 <= j < i ==> !(ops[j].SpendUtxo? && ops[j].spent.key == k))
                          ==> InputAmount(p, k, ops) == Some(Negate64(ops[i].spent.amount))
    ensures k.txid != ZERO_HASH && (forall o :: o in ops && o.SpendUtxo? ==> o.spent.key != k) ==> InputAmount(p, k, ops) == None
  {
    hide Negate64, First;
    FirstIsFirst(ops, Spends(k));
  }

  /** What the code demands of its callers: a bidder input with the zero hash
      indexes an output of the genesis block. */
  predicate InGenesisRange(p: Params, k: UtxoKey) {
    k.txid == ZERO_HASH ==> k.index < |p.genesisOutputs|
  }

  ghost predicate GenesisInputsExist(p: Params, txn: Txn)
    decreases txn
  {
    match txn.meta
    case AtomicWrapper(txns) => forall t :: t in txns ==> GenesisInputsExist(p, t)
    case AcceptNFTBid(ks) => forall k :: k in ks ==> InGenesisRange(p, k)
    case DAOCoinLimitOrder(bs) => forall b :: b in bs ==> forall k :: k in b.inputs ==> InGenesisRange(p, k)
    case _ => true
  }

  /** Drafts for a bidder's inputs; one unresolved input and there are none. */
  function BidderDrafts(p: Params, bidder: Bytes, ks: seq<UtxoKey>, ops: seq<UtxoOp>): Option<seq<Draft>> {
    if ks == [] then Some([])
    else
      var init := BidderDrafts(p, bidder, ks[..|ks| - 1], ops);
      var amount := InputAmount(p, ks[|ks| - 1], ops);
      if init.Some? && amount.Some?
      then Some(init.value + [Draft(MainAccount(p, bidder), amount.value, InputOp)])
      else None
  }

  // ---------------------------------------------------------------- the operation generators

  function SpendDraft(p: Params): UtxoOp -> seq<Draft> {
    (o: UtxoOp) =>
      if o.SpendBalance? then [Draft(MainAccount(p, o.pk), Negate64(o.amount), InputOp)] else []
  }

  function ImplicitDraft(p: Params, numOutputs: nat): UtxoOp -> seq<Draft> {
    (o: UtxoOp) =>
      if o.AddUtxo? && o.added.Some? && o.added.value.key.index >= numOutputs
      then [Draft(MainAccount(p, o.added.value.owner), o.added.value.amount, OutputOp)]
      else if o.AddBalance? || o.PayToBalance?
      then [Draft(MainAccount(p, o.pk), o.amount, OutputOp)]
      else []
  }

  /** The number of outputs as the 32-bit number the code compares indexes with. */
  function NumOutputs(txn: Txn): nat {
    |txn.outputs| % 0x1_0000_0000
  }

  function CreatorCoinDrafts(p: Params, txn: Txn, ops: seq<UtxoOp>): seq<Draft> {
    if !txn.meta.CreatorCoinTxn? then []
    else
      var o := First(ops, IsCreatorCoin);
      if o.None? then []
      else
        var account := CreatorAccount(p, txn.meta.profile);
        match txn.meta.trade
        case Sell => [Draft(account, o.value.lockedDiff, InputOp)]
        case Buy => [Draft(account, o.value.lockedDiff, OutputOp)]
        case OtherTrade => []
  }

  function SwapIdentityDrafts(p: Params, txn: Txn, ops: seq<UtxoOp>): seq<Draft> {
    if !txn.meta.SwapIdentity? then []
    else
      var o := First(ops, IsSwapIdentity);
      if o.None? then []
      else
        var from, to := CreatorAccount(p, txn.meta.from), CreatorAccount(p, txn.meta.to);
        [Draft(from, Negate64(o.value.fromLocked), InputOp), Draft(to, Negate64(o.value.toLocked), InputOp),
         Draft(from, o.value.toLocked, OutputOp), Draft(to, o.value.fromLocked, OutputOp)]
  }

  function RoyaltyDraft(p: Params): Royalty -> seq<Draft> {
    (r: Royalty) => if r.amount == 0 then [] else [Draft(CreatorAccount(p, r.pk), r.amount, OutputOp)]
  }

  /** The creator's own royalty, paid only above the auto-sell threshold; the
      circulation is read as a 64-bit number. */
  function CreatorRoyaltyDraft(p: Params, creator: Bytes, royalty: UInt64, circulation: nat): seq<Draft> {
    if circulation % TWO_64 >= p.autoSellThreshold && royalty > 0
    then [Draft(CreatorAccount(p, creator), royalty, OutputOp)]
    else []
  }

  function AcceptNFTDrafts(p: Params, txn: Txn, ops: seq<UtxoOp>): seq<Draft> {
    if !txn.meta.AcceptNFTBid? then []
    else
      var o := First(ops, IsAcceptNFTBid);
      if o.None? then []
      else
        var bids := BidderDrafts(p, o.value.bidder, txn.meta.bidderInputs, ops);
        if bids.None? then []
        else bids.value + CreatorRoyaltyDraft(p, o.value.creator, o.value.creatorRoyalty, o.value.circulation)
             + FlatMap(o.value.royalties, RoyaltyDraft(p))
  }

  function NFTBidDrafts(p: Params, txn: Txn, ops: seq<UtxoOp>): seq<Draft> {
    if !txn.meta.NFTBid? then []
    else
      var o := First(ops, IsNFTBid);
      if o.None? then []
      else
        (if o.value.prevCirculation.None? then []
         else CreatorRoyaltyDraft(p, o.value.creator, o.value.creatorRoyalty, o.value.prevCirculation.value))
        + FlatMap(o.value.royalties, RoyaltyDraft(p))
  }

  function UpdateProfileDrafts(p: Params, txn: Txn, ops: seq<UtxoOp>): seq<Draft> {
    if !txn.meta.UpdateProfile? then []
    else
      var o := First(ops, IsUpdateProfile);
      if o.Some? && o.value.clobbered > 0
      then [Draft(CreatorAccount(p, txn.pk), Negate64(o.value.clobbered), InputOp)]
      else []
  }

  function AllBidderDrafts(p: Params, bs: seq<BidderInput>, ops: seq<UtxoOp>): Option<seq<Draft>> {
    if bs == [] then Some([])
    else
      var init := AllBidderDrafts(p, bs[..|bs| - 1], ops);
      var last := BidderDrafts(p, bs[|bs| - 1].transactor, bs[|bs| - 1].inputs, ops);
      if init.Some? && last.Some? then Some(init.value + last.value) else None
  }

  function DAOCoinDrafts(p: Params, txn: Txn, ops: seq<UtxoOp>): seq<Draft> {
    if !txn.meta.DAOCoinLimitOrder? then []
    else
      var r := AllBidderDrafts(p, txn.meta.bidders, ops);
      if r.Some? then r.value else []
  }

  function StakeDraft(p: Params, staked: Option<nat>): UtxoOp -> seq<Draft> {
    (o: UtxoOp) =>
      if o.StakeOp? && o.stakedTo.Some? && staked.Some? && staked.value < TWO_64
      then [Draft(ValidatorAccount(p, o.stakedTo.value), staked.value, OutputOp)]
      else []
  }

  /** Both operations of an unstake carry the positive amount, also the input. */
  function UnstakeDraft(p: Params, unstaked: Option<nat>): UtxoOp -> seq<Draft> {
    (o: UtxoOp) =>
      if o.UnstakeOp? && o.unstakedFrom.Some? && |o.prevStakers| == 1 && unstaked.Some? && unstaked.value < TWO_64
      then [Draft(ValidatorAccount(p, o.unstakedFrom.value), unstaked.value, InputOp),
            Draft(LockedStakeAccount(p, o.prevStakers[0], o.unstakedFrom.value, o.epoch), unstaked.value, OutputOp)]
      else []
  }

  function UnlockedDraft(p: Params): LockedStakeEntry -> seq<Draft> {
    (e: LockedStakeEntry) =>
      if e.amount < TWO_64
      then [Draft(LockedStakeAccount(p, e.staker, e.validator, e.epoch), e.amount, InputOp)]
      else []
  }

  function UnlockDraft(p: Params): UtxoOp -> seq<Draft> {
    (o: UtxoOp) => if o.UnlockStakeOp? then FlatMap(o.prevLocked, UnlockedDraft(p)) else []
  }

  function RestakeDraft(p: Params): UtxoOp -> seq<Draft> {
    (o: UtxoOp) => if o.Restake? then [Draft(ValidatorAccount(p, o.restaked), o.amount, OutputOp)] else []
  }

  function StakeDrafts(p: Params, txn: Txn, ops: seq<UtxoOp>): seq<Draft> {
    if txn.meta.Stake? then FlatMap(ops, StakeDraft(p, txn.meta.staked)) else []
  }

  function UnstakeDrafts(p: Params, txn: Txn, ops: seq<UtxoOp>): seq<Draft> {
    if txn.meta.Unstake? then FlatMap(ops, UnstakeDraft(p, txn.meta.unstaked)) else []
  }

  function UnlockDrafts(p: Params, txn: Txn, ops: seq<UtxoOp>): seq<Draft> {
    if txn.meta.UnlockStake? then FlatMap(ops, UnlockDraft(p)) else []
  }

  // ---------------------------------------------------------------- whole transactions

  /** What the eleven generators add, in order. */
  function SpecialDrafts(p: Params, txn: Txn, ops: seq<UtxoOp>): seq<Draft> {
    FlatMap(ops, SpendDraft(p))
    + FlatMap(ops, ImplicitDraft(p, NumOutputs(txn)))
    + CreatorCoinDrafts(p, txn, ops)
    + SwapIdentityDrafts(p, txn, ops)
    + AcceptNFTDrafts(p, txn, ops)
    + NFTBidDrafts(p, txn, ops)
    + UpdateProfileDrafts(p, txn, ops)
    + DAOCoinDrafts(p, txn, ops)
    + StakeDrafts(p, txn, ops)
    + UnstakeDrafts(p, txn, ops)
    + UnlockDrafts(p, txn, ops)
  }

  function PlainDrafts(p: Params, balanceModel: bool, txn: Txn, spent: map<UtxoKey, UInt64>): seq<Draft> {
    FlatMap(txn.inputs, InputDraft(p, txn.pk, spent))
    + if balanceModel then [] else FlatMap(txn.outputs, OutputDraft(p))
  }

  function LeafDrafts(p: Params, balanceModel: bool, txn: Txn, ops: seq<UtxoOp>, spent: map<UtxoKey, UInt64>): seq<Draft> {
    PlainDrafts(p, balanceModel, txn, spent) + if |ops| > 0 then SpecialDrafts(p, txn, ops) else []
  }

  /** The inner lists recorded for an atomic wrapper. */
  function InnerLists(ops: seq<UtxoOp>): seq<OpList> {
    var o := First(ops, IsAtomicWrapper);
    if o.Some? then o.value.inner else []
  }

  /** A wrapper translates to its inner transactions in turn, each numbered from
      zero; a length mismatch yields nothing. */
  function OpsOf(p: Params, balanceModel: bool, txn: Txn, ops: seq<UtxoOp>, spent: map<UtxoKey, UInt64>): seq<Op>
    decreases txn, 1
  {
    match txn.meta
    case AtomicWrapper(txns) =>
      if |InnerLists(ops)| != |txns| then []
      else OpsOfAll(p, balanceModel, txns, InnerLists(ops), spent)
    case _ => Number(LeafDrafts(p, balanceModel, txn, ops, spent), 0)
  }

  function OpsOfAll(p: Params, balanceModel: bool, txns: seq<Txn>, lists: seq<OpList>,
                    spent: map<UtxoKey, UInt64>): seq<Op>
    requires |lists| == |txns|
    decreases txns, 0
  {
    if txns == [] then []
    else
      OpsOfAll(p, balanceModel, txns[..|txns| - 1], lists[..|txns| - 1], spent)
      + OpsOf(p, balanceModel, txns[|txns| - 1], lists[|txns| - 1].ops, spent)
  }

  // ---------------------------------------------------------------- whole blocks

  datatype TxnView = TxnView(hash: string, ops: seq<Op>)

  function SpentIn(ops: seq<UtxoOp>, spent: map<UtxoKey, UInt64>): map<UtxoKey, UInt64> {
    if ops == [] then spent
    else
      var m := SpentIn(ops[..|ops| - 1], spent);
      var o := ops[|ops| - 1];
      if o.SpendUtxo? then m[o.spent.key := o.spent.amount] else m
  }

  /** All outputs spent by a block's own lists, with their amounts. */
  function SpentUtxos(lists: seq<OpList>): map<UtxoKey, UInt64> {
    if lists == [] then map[] else SpentIn(lists[|lists| - 1].ops, SpentUtxos(lists[..|lists| - 1]))
  }

  predicate NoSpend(ops: seq<UtxoOp>, k: UtxoKey) {
    forall i :: 0 <= i < |ops| ==> !(ops[i].SpendUtxo? && ops[i].spent.key == k)
  }

  /** A list that does not spend a key leaves its entry alone. */
  lemma {:induction false} NotSpentIn(ops: seq<UtxoOp>, m: map<UtxoKey, UInt64>, k: UtxoKey)
    requires NoSpend(ops, k)
    ensures k in SpentIn(ops, m) <==> k in m
    ensures k in m ==> SpentIn(ops, m)[k] == m[k]
  {
    if ops != [] {
      NotSpentIn(ops[..|ops| - 1], m, k);
    }
  }

  lemma {:induction false} LastSpendIn(ops: seq<UtxoOp>, m: map<UtxoKey, UInt64>, e: UtxoEntry, i: nat)
    requires i < |ops| && ops[i] == SpendUtxo(e) && NoSpend(ops[i + 1..], e.key)
    ensures e.key in SpentIn(ops, m) && SpentIn(ops, m)[e.key] == e.amount
  {
    if i < |ops| - 1 {
      assert ops[i + 1..][..|ops| - i - 2] == ops[..|ops| - 1][i + 1..];
      assert ops[|ops| - 1] == ops[i + 1..][|ops| - i - 2];
      LastSpendIn(ops[..|ops| - 1], m, e, i);
    }
  }

  /** Where a block spends a key more than once, the last amount counts. */
  lemma {:induction false} LastSpendCounts(lists: seq<OpList>, e: UtxoEntry, l: nat, i: nat)
    requires l < |lists| && i < |lists[l].ops| && lists[l].ops[i] == SpendUtxo(e) && NoSpend(lists[l].ops[i + 1..], e.key)
    requires forall j :: l < j < |lists| ==> NoSpend(lists[j].ops, e.key)
    ensures e.key in SpentUtxos(lists) && SpentUtxos(lists)[e.key] == e.amount
  {
    var init, last := lists[..|lists| - 1], lists[|lists| - 1].ops;
    if l < |lists| - 1 {
      LastSpendCounts(init, e, l, i);
      NotSpentIn(last, SpentUtxos(init), e.key);
    } else {
      LastSpendIn(last, SpentUtxos(init), e, i);
    }
  }

  /** A block has no recorded lists at all, or one per transaction and perhaps more. */
  predicate Indexable(b: Block) {
    |b.utxoOps| > 0 ==> |b.utxoOps| >= |b.txns|
  }

  function ListOf(b: Block, i: nat): seq<UtxoOp>
    requires Indexable(b) && i < |b.txns|
  {
    if |b.utxoOps| > 0 then b.utxoOps[i].ops else []
  }

  function TxnOf(p: Params, b: Block, i: nat): TxnView
    requires Indexable(b) && i < |b.txns|
  {
    TxnView(b.txns[i].hash,
            Squash(OpsOf(p, IsBalanceModel(p, b.height), b.txns[i], ListOf(b, i), SpentUtxos(b.utxoOps))))
  }

  function HasBlockLevel(b: Block): bool {
    |b.utxoOps| == |b.txns| + 1
  }

  function BlockLevelDrafts(p: Params, ops: seq<UtxoOp>): seq<Draft> {
    FlatMap(ops, ImplicitDraft(p, 0)) + FlatMap(ops, RestakeDraft(p))
  }

  function BlockLevelTxn(p: Params, b: Block): TxnView
    requires HasBlockLevel(b)
  {
    TxnView("blockHash-" + b.hash, Squash(Number(BlockLevelDrafts(p, b.utxoOps[|b.txns|].ops), 0)))
  }

  function TxnsUpTo(p: Params, b: Block, n: nat): (ts: seq<TxnView>)
    requires Indexable(b) && n <= |b.txns|
    ensures |ts| == n
  {
    seq(n, i requires 0 <= i < n => TxnOf(p, b, i))
  }

  lemma TxnsNext(p: Params, b: Block, n: nat)
    requires Indexable(b) && n < |b.txns|
    ensures TxnsUpTo(p, b, n + 1) == TxnsUpTo(p, b, n) + [TxnOf(p, b, n)]
  {
    hide TxnOf;
  }

  function Translate(p: Params, b: Block): seq<TxnView>
    requires Indexable(b)
  {
    TxnsUpTo(p, b, |b.txns|) + if HasBlockLevel(b) then [BlockLevelTxn(p, b)] else []
  }
}
