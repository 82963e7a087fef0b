/** What a plain transaction does to sub-accounts: creator coins, the stake pools
    of validators, and locked stake. What it means is read off the transaction and
    its recorded effects; where the code does something else, that is said apart. */
module SubAccounts {
  import opened ByteStrings
  import opened IndexState
  import opened Sums
  import opened Int64
  import opened Operations
  import opened Chain
  import opened Translation
  import opened Ledger

  datatype Kind = Main | Coin | Pool | Locked

  function KindOf(a: Account): Kind {
    if a.sub.None? || a.sub.value == "" then Main
    else if a.sub.value == CREATOR_COIN then Coin
    else if a.sub.value == VALIDATOR_ENTRY then Pool
    else Locked
  }

  lemma KindsOfAccounts(p: Params, pk: Bytes, validator: Bytes, epoch: nat)
    ensures KindOf(MainAccount(p, pk)) == Main && KindOf(CreatorAccount(p, pk)) == Coin
    ensures KindOf(ValidatorAccount(p, pk)) == Pool && KindOf(LockedStakeAccount(p, pk, validator, epoch)) == Locked
  {
    hide Decimal;
    assert LockedStakeAccount(p, pk, validator, epoch).sub.value[0] == 'L';
    assert CREATOR_COIN[0] == 'C' && VALIDATOR_ENTRY[0] == 'V';
  }

  /** All drafts are for accounts of these kinds. */
  ghost predicate OnlyKinds(ds: seq<Draft>, ks: set<Kind>) {
    forall i :: 0 <= i < |ds| ==> KindOf(ds[i].account) in ks
  }

  lemma {:induction false} OnlyFlatMap<T>(xs: seq<T>, f: T -> seq<Draft>, ks: set<Kind>)
    requires forall x :: OnlyKinds(f(x), ks)
    ensures OnlyKinds(FlatMap(xs, f), ks)
  {
    if xs != [] {
      OnlyFlatMap(xs[..|xs| - 1], f, ks);
    }
  }

  /** What an amount counts for, as an input or as an output. Sums for every value
      say as much as the multiset of an account's amounts and types. */
  type Value = (int, OpType) -> int

  /** Amounts as they are, amounts as the merge parses them, and operations counted. */
  function AsIs(): Value { (x: int, k: OpType) => x }
  function Parsed(): Value { (x: int, k: OpType) => ParseInt64(x) }
  function Each(): Value { (x: int, k: OpType) => 1 }

  function SubWeight(id: PartialId, m: Value): Draft -> int {
    (d: Draft) => if IdOf(d.account) == id then m(d.value, d.kind) else 0
  }

  /** The value of what a list of drafts does to one account. */
  function WeighAt(ds: seq<Draft>, id: PartialId, m: Value): int {
    Sum(ds, SubWeight(id, m))
  }

  lemma AsIsNet(ds: seq<Draft>, id: PartialId)
    ensures WeighAt(ds, id, AsIs()) == NetD(ds, id)
  {
    SumPointwise(ds, ds, SubWeight(id, AsIs()), CreditD(id));
  }

  lemma OneAt(d: Draft, id: PartialId, m: Value)
    ensures WeighAt([d], id, m) == Sum([d], SubWeight(id, m)) == if IdOf(d.account) == id then m(d.value, d.kind) else 0
  {
    OneSum(d, SubWeight(id, m));
  }

  lemma ConcatAt(xs: seq<Draft>, ys: seq<Draft>, id: PartialId, m: Value)
    ensures WeighAt(xs + ys, id, m) == WeighAt(xs, id, m) + WeighAt(ys, id, m)
  {
    SumConcat(xs, ys, SubWeight(id, m));
  }

  lemma OnlyNet(ds: seq<Draft>, ks: set<Kind>, a: Account, m: Value)
    requires OnlyKinds(ds, ks) && KindOf(a) !in ks
    ensures WeighAt(ds, IdOf(a), m) == 0
  {
    forall i | 0 <= i < |ds| ensures SubWeight(IdOf(a), m)(ds[i]) == 0 {
      assert KindOf(ds[i].account) in ks;
      assert IdOf(ds[i].account) != IdOf(a);
    }
    SumZero(ds, SubWeight(IdOf(a), m));
  }

  /** Drafts for one account carry 64-bit amounts. */
  ghost predicate Int64For(ds: seq<Draft>, id: PartialId) {
    forall i :: 0 <= i < |ds| && IdOf(ds[i].account) == id ==> IsInt64(ds[i].value)
  }

  lemma {:induction false} Int64ForFlatMap<T>(xs: seq<T>, f: T -> seq<Draft>, id: PartialId)
    requires forall i :: 0 <= i < |xs| ==> Int64For(f(xs[i]), id)
    ensures Int64For(FlatMap(xs, f), id)
  {
    if xs != [] {
      Int64ForFlatMap(xs[..|xs| - 1], f, id);
    }
  }

  // ---------------------------------------------------------------- which kinds a generator touches

  lemma {:induction false} BidderOnly(p: Params, bidder: Bytes, ks: seq<UtxoKey>, ops: seq<UtxoOp>)
    ensures BidderDrafts(p, bidder, ks, ops).Some? ==> OnlyKinds(BidderDrafts(p, bidder, ks, ops).value, {Main})
    ensures BidderDrafts(p, bidder, ks, ops).Some? <==> forall k :: k in ks ==> InputAmount(p, k, ops).Some?
  {
    if ks != [] {
      BidderOnly(p, bidder, ks[..|ks| - 1], ops);
      assert ks == ks[..|ks| - 1] + [ks[|ks| - 1]];
    }
  }

  lemma {:induction false} AllBidderOnly(p: Params, bs: seq<BidderInput>, ops: seq<UtxoOp>)
    ensures AllBidderDrafts(p, bs, ops).Some? ==> OnlyKinds(AllBidderDrafts(p, bs, ops).value, {Main})
  {
    if bs != [] {
      AllBidderOnly(p, bs[..|bs| - 1], ops);
      BidderOnly(p, bs[|bs| - 1].transactor, bs[|bs| - 1].inputs, ops);
    }
  }

  lemma MainGenerators(p: Params, balanceModel: bool, txn: Txn, ops: seq<UtxoOp>, spent: map<UtxoKey, UInt64>)
    ensures OnlyKinds(FlatMap(txn.inputs, InputDraft(p, txn.pk, spent)), {Main})
    ensures OnlyKinds(if balanceModel then [] else FlatMap(txn.outputs, OutputDraft(p)), {Main})
    ensures OnlyKinds(FlatMap(ops, SpendDraft(p)), {Main}) && OnlyKinds(FlatMap(ops, ImplicitDraft(p, NumOutputs(txn))), {Main})
    ensures OnlyKinds(DAOCoinDrafts(p, txn, ops), {Main})
  {
    hide FlatMap, Negate64, BidderDrafts, AllBidderDrafts;
    assert forall x :: OnlyKinds(InputDraft(p, txn.pk, spent)(x), {Main});
    assert forall x :: OnlyKinds(OutputDraft(p)(x), {Main});
    assert forall x :: OnlyKinds(SpendDraft(p)(x), {Main});
    assert forall x :: OnlyKinds(ImplicitDraft(p, NumOutputs(txn))(x), {Main});
    hide OnlyKinds;
    OnlyFlatMap(txn.inputs, InputDraft(p, txn.pk, spent), {Main});
    OnlyFlatMap(txn.outputs, OutputDraft(p), {Main});
    OnlyFlatMap(ops, SpendDraft(p), {Main});
    OnlyFlatMap(ops, ImplicitDraft(p, NumOutputs(txn)), {Main});
    DAOCoinOnly(p, txn, ops);
    NothingOnly({Main});
  }

  lemma NothingOnly(ks: set<Kind>)
    ensures OnlyKinds([], ks)
  {
  }

  lemma DAOCoinOnly(p: Params, txn: Txn, ops: seq<UtxoOp>)
    ensures OnlyKinds(DAOCoinDrafts(p, txn, ops), {Main})
  {
    if txn.meta.DAOCoinLimitOrder? {
      AllBidderOnly(p, txn.meta.bidders, ops);
    }
  }

  lemma RoyaltiesOnly(p: Params, rs: seq<Royalty>)
    ensures OnlyKinds(FlatMap(rs, RoyaltyDraft(p)), {Coin})
  {
    OnlyFlatMap(rs, RoyaltyDraft(p), {Coin});
  }

  lemma CoinGenerators(p: Params, txn: Txn, ops: seq<UtxoOp>)
    ensures OnlyKinds(CreatorCoinDrafts(p, txn, ops), {Coin}) && OnlyKinds(SwapIdentityDrafts(p, txn, ops), {Coin})
    ensures OnlyKinds(NFTBidDrafts(p, txn, ops), {Coin}) && OnlyKinds(UpdateProfileDrafts(p, txn, ops), {Coin})
    ensures OnlyKinds(AcceptNFTDrafts(p, txn, ops), {Main, Coin})
  {
    hide FlatMap;
    var o, bid := First(ops, IsAcceptNFTBid), First(ops, IsNFTBid);
    if txn.meta.AcceptNFTBid? && o.Some? {
      BidderOnly(p, o.value.bidder, txn.meta.bidderInputs, ops);
      RoyaltiesOnly(p, o.value.royalties);
    }
    if bid.Some? {
      RoyaltiesOnly(p, bid.value.royalties);
    }
  }

  lemma StakeGenerators(p: Params, txn: Txn, ops: seq<UtxoOp>)
    ensures OnlyKinds(StakeDrafts(p, txn, ops), {Pool})
    ensures OnlyKinds(UnstakeDrafts(p, txn, ops), {Pool, Locked}) && OnlyKinds(UnlockDrafts(p, txn, ops), {Locked})
  {
    hide FlatMap, LockedStakeAccount, ValidatorAccount;
    forall pk ensures KindOf(ValidatorAccount(p, pk)) == Pool {
      KindsOfAccounts(p, pk, pk, 0);
    }
    forall pk, v, e ensures KindOf(LockedStakeAccount(p, pk, v, e)) == Locked {
      KindsOfAccounts(p, pk, v, e);
    }
    if txn.meta.Stake? {
      OnlyFlatMap(ops, StakeDraft(p, txn.meta.staked), {Pool});
    }
    if txn.meta.Unstake? {
      OnlyFlatMap(ops, UnstakeDraft(p, txn.meta.unstaked), {Pool, Locked});
    }
    forall x ensures OnlyKinds(UnlockDraft(p)(x), {Locked}) {
      if x.UnlockStakeOp? {
        OnlyFlatMap(x.prevLocked, UnlockedDraft(p), {Locked});
      }
    }
    OnlyFlatMap(ops, UnlockDraft(p), {Locked});
  }

  // ---------------------------------------------------------------- the net of a sub-account

  /** The generators that touch sub-accounts, together. */
  function SubNet(p: Params, txn: Txn, ops: seq<UtxoOp>, id: PartialId, m: Value): int {
    CoinNet(p, txn, ops, id, m) + WeighAt(StakeDrafts(p, txn, ops), id, m) + WeighAt(UnstakeDrafts(p, txn, ops), id, m)
    + WeighAt(UnlockDrafts(p, txn, ops), id, m)
  }

  function CoinNet(p: Params, txn: Txn, ops: seq<UtxoOp>, id: PartialId, m: Value): int {
    WeighAt(CreatorCoinDrafts(p, txn, ops), id, m) + WeighAt(SwapIdentityDrafts(p, txn, ops), id, m)
    + WeighAt(AcceptNFTDrafts(p, txn, ops), id, m) + WeighAt(NFTBidDrafts(p, txn, ops), id, m)
    + WeighAt(UpdateProfileDrafts(p, txn, ops), id, m)
  }

  /** Inputs, outputs, balance effects and bidder inputs leave sub-accounts alone. */
  lemma LeafSubNet(p: Params, balanceModel: bool, txn: Txn, ops: seq<UtxoOp>, spent: map<UtxoKey, UInt64>, a: Account, m: Value)
    requires KindOf(a) != Main
    ensures WeighAt(LeafDrafts(p, balanceModel, txn, ops, spent), IdOf(a), m)
            == if |ops| == 0 then 0 else SubNet(p, txn, ops, IdOf(a), m)
  {
    hide Sum, LeafDrafts, SpecialDrafts, FlatMap, CreatorCoinDrafts, SwapIdentityDrafts, AcceptNFTDrafts, NFTBidDrafts,
         UpdateProfileDrafts, DAOCoinDrafts, StakeDrafts, UnstakeDrafts, UnlockDrafts, OnlyKinds, KindOf, SubNet;
    MainGenerators(p, balanceModel, txn, ops, spent);
    AssembleLeaf(p, balanceModel, txn, ops, spent, SubWeight(IdOf(a), m));
    OnlyNet(FlatMap(txn.inputs, InputDraft(p, txn.pk, spent)), {Main}, a, m);
    OnlyNet(if balanceModel then [] else FlatMap(txn.outputs, OutputDraft(p)), {Main}, a, m);
    OnlyNet(FlatMap(ops, SpendDraft(p)), {Main}, a, m);
    OnlyNet(FlatMap(ops, ImplicitDraft(p, NumOutputs(txn))), {Main}, a, m);
    OnlyNet(DAOCoinDrafts(p, txn, ops), {Main}, a, m);
    SpecialConcat(p, txn, ops, SubWeight(IdOf(a), m));
    SubNetIs(p, txn, ops, IdOf(a), m);
    NoDrafts(IdOf(a), m);
  }

  lemma NoDrafts(id: PartialId, m: Value)
    ensures WeighAt([], id, m) == 0
  {
  }

  lemma SubNetIs(p: Params, txn: Txn, ops: seq<UtxoOp>, id: PartialId, m: Value)
    ensures SubNet(p, txn, ops, id, m)
            == WeighAt(CreatorCoinDrafts(p, txn, ops), id, m) + WeighAt(SwapIdentityDrafts(p, txn, ops), id, m)
               + WeighAt(AcceptNFTDrafts(p, txn, ops), id, m) + WeighAt(NFTBidDrafts(p, txn, ops), id, m)
               + WeighAt(UpdateProfileDrafts(p, txn, ops), id, m)
               + WeighAt(StakeDrafts(p, txn, ops), id, m) + WeighAt(UnstakeDrafts(p, txn, ops), id, m)
               + WeighAt(UnlockDrafts(p, txn, ops), id, m)
  {
  }

  // ---------------------------------------------------------------- creator coins

  function RoyaltyFn(p: Params, a: string): Royalty -> int {
    (r: Royalty) => Owned(p, r.pk, a, r.amount)
  }

  /** The creator's share is due only above the auto-sell threshold. */
  function CreatorShare(p: Params, creator: Bytes, royalty: UInt64, circulation: nat, a: string): int {
    if circulation >= p.autoSellThreshold then Owned(p, creator, a, royalty) else 0
  }

  /** The code compares the low 64 bits of the circulation: a share that is due and
      not paid for that. */
  function Truncated(p: Params, creator: Bytes, royalty: UInt64, circulation: Option<nat>, a: string): int {
    if circulation.Some? && circulation.value % TWO_64 < p.autoSellThreshold
    then CreatorShare(p, creator, royalty, circulation.value, a) else 0
  }

  /** The royalties that a sale of an NFT owes one address. */
  function Due(p: Params, creator: Bytes, royalty: UInt64, circulation: Option<nat>, royalties: seq<Royalty>, a: string): int {
    (if circulation.None? then 0 else CreatorShare(p, creator, royalty, circulation.value, a)) + Sum(royalties, RoyaltyFn(p, a))
  }

  /** What the effects mean for one address's creator coin. */
  function CoinMeans(p: Params, txn: Txn, ops: seq<UtxoOp>, a: string): int {
    match txn.meta
    case CreatorCoinTxn(profile, trade) =>
      var o := First(ops, IsCreatorCoin);
      if o.None? || trade == OtherTrade then 0 else Owned(p, profile, a, o.value.lockedDiff)
    case SwapIdentity(from, to) =>
      var o := First(ops, IsSwapIdentity);
      if o.None? then 0
      else Owned(p, from, a, o.value.toLocked - o.value.fromLocked) + Owned(p, to, a, o.value.fromLocked - o.value.toLocked)
    case AcceptNFTBid(_) => AcceptDue(p, ops, a)
    case NFTBid =>
      var o := First(ops, IsNFTBid);
      if o.None? then 0 else Due(p, o.value.creator, o.value.creatorRoyalty, o.value.prevCirculation, o.value.royalties, a)
    case UpdateProfile =>
      var o := First(ops, IsUpdateProfile);
      if o.None? then 0 else Owned(p, txn.pk, a, 0 - o.value.clobbered)
    case _ => 0
  }

  function AcceptDue(p: Params, ops: seq<UtxoOp>, a: string): int {
    var o := First(ops, IsAcceptNFTBid);
    if o.None? then 0 else Due(p, o.value.creator, o.value.creatorRoyalty, Some(o.value.circulation), o.value.royalties, a)
  }

  /** An accepted bid one of whose bidder inputs the code cannot resolve. */
  ghost predicate Unresolved(p: Params, txn: Txn, ops: seq<UtxoOp>) {
    txn.meta.AcceptNFTBid? && exists k :: k in txn.meta.bidderInputs && InputAmount(p, k, ops).None?
  }

  function AcceptTruncated(p: Params, ops: seq<UtxoOp>, a: string): int {
    var o := First(ops, IsAcceptNFTBid);
    if o.None? then 0 else Truncated(p, o.value.creator, o.value.creatorRoyalty, Some(o.value.circulation), a)
  }

  function BidTruncated(p: Params, ops: seq<UtxoOp>, a: string): int {
    var o := First(ops, IsNFTBid);
    if o.None? then 0 else Truncated(p, o.value.creator, o.value.creatorRoyalty, o.value.prevCirculation, a)
  }

  /** The royalties that are due and that the code does not pay. */
  ghost function Dropped(p: Params, txn: Txn, ops: seq<UtxoOp>, a: string): int {
    match txn.meta
    case AcceptNFTBid(_) => if Unresolved(p, txn, ops) then AcceptDue(p, ops, a) else AcceptTruncated(p, ops, a)
    case NFTBid => BidTruncated(p, ops, a)
    case _ => 0
  }

  lemma DueAtLeast(p: Params, ops: seq<UtxoOp>, a: string)
    ensures AcceptDue(p, ops, a) >= 0 && AcceptTruncated(p, ops, a) >= 0 && BidTruncated(p, ops, a) >= 0
  {
    var o := First(ops, IsAcceptNFTBid);
    if o.Some? {
      SumAtLeast(o.value.royalties, RoyaltyFn(p, a));
    }
  }

  /** The amounts that the code negates fit in 63 bits. */
  ghost predicate SmallCoins(ops: seq<UtxoOp>) {
    forall o :: o in ops ==>
      (o.SwapIdentityOp? ==> o.fromLocked <= MAX_INT64 && o.toLocked <= MAX_INT64)
      && (o.UpdateProfileOp? ==> o.clobbered <= MAX_INT64)
  }

  /** What a sale of an NFT pays one address, as the code has it. */
  function SaleWeighs(p: Params, creator: Bytes, royalty: UInt64, circulation: Option<nat>, royalties: seq<Royalty>,
                      a: string, m: Value): int {
    (if circulation.Some? && circulation.value % TWO_64 >= p.autoSellThreshold && royalty > 0
     then Owned(p, creator, a, m(royalty, OutputOp)) else 0)
    + Sum(royalties, PaidFn(p, a, m))
  }

  function PaidFn(p: Params, a: string, m: Value): Royalty -> int {
    (r: Royalty) => if r.amount > 0 then Owned(p, r.pk, a, m(r.amount, OutputOp)) else 0
  }

  /** What the operations on one address's creator coin are, as the code gives them:
      sells, the balances a swap takes and clobbered coins as inputs; buys, the
      balances a swap gives and royalties as outputs. */
  ghost function CoinWeighs(p: Params, txn: Txn, ops: seq<UtxoOp>, a: string, m: Value): int {
    match txn.meta
    case CreatorCoinTxn(profile, trade) =>
      var o := First(ops, IsCreatorCoin);
      if o.None? || trade == OtherTrade then 0
      else Owned(p, profile, a, m(o.value.lockedDiff, if trade == Sell then InputOp else OutputOp))
    case SwapIdentity(from, to) =>
      var o := First(ops, IsSwapIdentity);
      if o.None? then 0
      else Owned(p, from, a, m(Negate64(o.value.fromLocked), InputOp) + m(o.value.toLocked, OutputOp))
           + Owned(p, to, a, m(Negate64(o.value.toLocked), InputOp) + m(o.value.fromLocked, OutputOp))
    case AcceptNFTBid(_) =>
      var o := First(ops, IsAcceptNFTBid);
      if o.None? || Unresolved(p, txn, ops) then 0
      else SaleWeighs(p, o.value.creator, o.value.creatorRoyalty, Some(o.value.circulation), o.value.royalties, a, m)
    case NFTBid =>
      var o := First(ops, IsNFTBid);
      if o.None? then 0
      else SaleWeighs(p, o.value.creator, o.value.creatorRoyalty, o.value.prevCirculation, o.value.royalties, a, m)
    case UpdateProfile =>
      var o := First(ops, IsUpdateProfile);
      if o.None? || o.value.clobbered == 0 then 0 else Owned(p, txn.pk, a, m(Negate64(o.value.clobbered), InputOp))
    case _ => 0
  }

  lemma RoyaltiesNet(p: Params, rs: seq<Royalty>, a: string, m: Value)
    ensures WeighAt(FlatMap(rs, RoyaltyDraft(p)), PartialId(a, CREATOR_COIN), m) == Sum(rs, PaidFn(p, a, m))
  {
    hide FlatMap, Sum;
    var id := PartialId(a, CREATOR_COIN);
    forall i | 0 <= i < |rs| ensures Sum(RoyaltyDraft(p)(rs[i]), SubWeight(id, m)) == PaidFn(p, a, m)(rs[i]) {
      if rs[i].amount == 0 {
        SumZero([], SubWeight(id, m));
      } else {
        OneAt(RoyaltyDraft(p)(rs[i])[0], id, m);
        assert PaidFn(p, a, m)(rs[i]) == Owned(p, rs[i].pk, a, m(rs[i].amount, OutputOp));
      }
    }
    SumFlatMap(rs, RoyaltyDraft(p), SubWeight(id, m), PaidFn(p, a, m));
  }

  lemma ShareNet(p: Params, creator: Bytes, royalty: UInt64, circulation: nat, a: string, m: Value)
    ensures WeighAt(CreatorRoyaltyDraft(p, creator, royalty, circulation), PartialId(a, CREATOR_COIN), m)
            == if circulation % TWO_64 >= p.autoSellThreshold && royalty > 0 then Owned(p, creator, a, m(royalty, OutputOp)) else 0
  {
    var ds := CreatorRoyaltyDraft(p, creator, royalty, circulation);
    if ds != [] {
      OneAt(ds[0], PartialId(a, CREATOR_COIN), m);
    }
  }

  lemma AcceptNet(p: Params, txn: Txn, ops: seq<UtxoOp>, a: string, m: Value)
    requires txn.meta.AcceptNFTBid?
    ensures WeighAt(AcceptNFTDrafts(p, txn, ops), PartialId(a, CREATOR_COIN), m) == CoinWeighs(p, txn, ops, a, m)
  {
    hide FlatMap, WeighAt, Sum;
    var o, id := First(ops, IsAcceptNFTBid), PartialId(a, CREATOR_COIN);
    NoDrafts(id, m);
    if o.Some? {
      var bids := BidderDrafts(p, o.value.bidder, txn.meta.bidderInputs, ops);
      BidderOnly(p, o.value.bidder, txn.meta.bidderInputs, ops);
      if bids.Some? {
        var r1 := CreatorRoyaltyDraft(p, o.value.creator, o.value.creatorRoyalty, o.value.circulation);
        var r2 := FlatMap(o.value.royalties, RoyaltyDraft(p));
        OnlyNet(bids.value, {Main}, Account(a, Some(CREATOR_COIN)), m);
        ShareNet(p, o.value.creator, o.value.creatorRoyalty, o.value.circulation, a, m);
        RoyaltiesNet(p, o.value.royalties, a, m);
        ConcatAt(bids.value + r1, r2, id, m);
        ConcatAt(bids.value, r1, id, m);
      }
    }
  }

  lemma NFTBidNet(p: Params, txn: Txn, ops: seq<UtxoOp>, a: string, m: Value)
    requires txn.meta.NFTBid?
    ensures WeighAt(NFTBidDrafts(p, txn, ops), PartialId(a, CREATOR_COIN), m) == CoinWeighs(p, txn, ops, a, m)
  {
    hide FlatMap, WeighAt, Sum;
    var o, id := First(ops, IsNFTBid), PartialId(a, CREATOR_COIN);
    NoDrafts(id, m);
    if o.Some? {
      var r2 := FlatMap(o.value.royalties, RoyaltyDraft(p));
      RoyaltiesNet(p, o.value.royalties, a, m);
      if o.value.prevCirculation.None? {
        ConcatAt([], r2, id, m);
      } else {
        ShareNet(p, o.value.creator, o.value.creatorRoyalty, o.value.prevCirculation.value, a, m);
        ConcatAt(CreatorRoyaltyDraft(p, o.value.creator, o.value.creatorRoyalty, o.value.prevCirculation.value), r2, id, m);
      }
    }
  }

  lemma TradeNet(p: Params, txn: Txn, ops: seq<UtxoOp>, a: string, m: Value)
    requires txn.meta.CreatorCoinTxn?
    ensures WeighAt(CreatorCoinDrafts(p, txn, ops), PartialId(a, CREATOR_COIN), m) == CoinWeighs(p, txn, ops, a, m)
  {
    var ds := CreatorCoinDrafts(p, txn, ops);
    if ds != [] {
      OneAt(ds[0], PartialId(a, CREATOR_COIN), m);
    }
  }

  lemma ProfileNet(p: Params, txn: Txn, ops: seq<UtxoOp>, a: string, m: Value)
    requires txn.meta.UpdateProfile?
    ensures WeighAt(UpdateProfileDrafts(p, txn, ops), PartialId(a, CREATOR_COIN), m) == CoinWeighs(p, txn, ops, a, m)
  {
    hide Negate64;
    var ds := UpdateProfileDrafts(p, txn, ops);
    if ds != [] {
      OneAt(ds[0], PartialId(a, CREATOR_COIN), m);
    }
  }

  lemma SwapNetOf(p: Params, txn: Txn, ops: seq<UtxoOp>, a: string, m: Value)
    requires txn.meta.SwapIdentity?
    ensures WeighAt(SwapIdentityDrafts(p, txn, ops), PartialId(a, CREATOR_COIN), m) == CoinWeighs(p, txn, ops, a, m)
  {
    hide Negate64, WeighAt;
    var o, id, ds := First(ops, IsSwapIdentity), PartialId(a, CREATOR_COIN), SwapIdentityDrafts(p, txn, ops);
    NoDrafts(id, m);
    if o.Some? {
      assert ds == [ds[0]] + [ds[1]] + [ds[2]] + [ds[3]];
      ConcatAt([ds[0]] + [ds[1]] + [ds[2]], [ds[3]], id, m);
      ConcatAt([ds[0]] + [ds[1]], [ds[2]], id, m);
      ConcatAt([ds[0]], [ds[1]], id, m);
      OneAt(ds[0], id, m);
      OneAt(ds[1], id, m);
      OneAt(ds[2], id, m);
      OneAt(ds[3], id, m);
    }
  }

  lemma CoinNetIs(p: Params, txn: Txn, ops: seq<UtxoOp>, a: string, m: Value)
    ensures CoinNet(p, txn, ops, PartialId(a, CREATOR_COIN), m) == CoinWeighs(p, txn, ops, a, m)
  {
    NoDrafts(PartialId(a, CREATOR_COIN), m);
    if txn.meta.CreatorCoinTxn? {
      TradeNet(p, txn, ops, a, m);
    } else if txn.meta.SwapIdentity? {
      SwapNetOf(p, txn, ops, a, m);
    } else if txn.meta.AcceptNFTBid? {
      AcceptNet(p, txn, ops, a, m);
    } else if txn.meta.NFTBid? {
      NFTBidNet(p, txn, ops, a, m);
    } else if txn.meta.UpdateProfile? {
      ProfileNet(p, txn, ops, a, m);
    }
    hide WeighAt, First;
  }

  /** Under every value, the operations of a plain transaction on a creator-coin
      account are these, whatever its type and ledger model. */
  lemma CoinOperations(p: Params, balanceModel: bool, txn: Txn, ops: seq<UtxoOp>, spent: map<UtxoKey, UInt64>, pk: Bytes, m: Value)
    ensures WeighAt(LeafDrafts(p, balanceModel, txn, ops, spent), IdOf(CreatorAccount(p, pk)), m)
            == CoinWeighs(p, txn, ops, p.base58(pk), m)
  {
    hide WeighAt, LeafDrafts, CoinWeighs, CoinNet, StakeDrafts, UnstakeDrafts, UnlockDrafts, OnlyKinds, KindOf;
    KindsOfAccounts(p, pk, pk, 0);
    LeafSubNet(p, balanceModel, txn, ops, spent, CreatorAccount(p, pk), m);
    CoinNetIs(p, txn, ops, p.base58(pk), m);
    StakeGenerators(p, txn, ops);
    OnlyNet(StakeDrafts(p, txn, ops), {Pool}, CreatorAccount(p, pk), m);
    OnlyNet(UnstakeDrafts(p, txn, ops), {Pool, Locked}, CreatorAccount(p, pk), m);
    OnlyNet(UnlockDrafts(p, txn, ops), {Locked}, CreatorAccount(p, pk), m);
    if ops == [] {
      NoCoinEffects(p, txn, p.base58(pk), m);
    }
  }

  lemma NoCoinEffects(p: Params, txn: Txn, a: string, m: Value)
    ensures CoinWeighs(p, txn, [], a, m) == 0
  {
  }

  /** Read as amounts: a creator-coin account changes by what the effects mean, less
      the royalties that the code does not pay. */
  lemma CoinLedger(p: Params, balanceModel: bool, txn: Txn, ops: seq<UtxoOp>, spent: map<UtxoKey, UInt64>, pk: Bytes)
    requires SmallCoins(ops)
    ensures NetD(LeafDrafts(p, balanceModel, txn, ops, spent), IdOf(CreatorAccount(p, pk)))
            == CoinMeans(p, txn, ops, p.base58(pk)) - Dropped(p, txn, ops, p.base58(pk))
  {
    hide WeighAt, NetD, LeafDrafts, CoinWeighs, CoinMeans, Dropped, SmallCoins;
    AsIsNet(LeafDrafts(p, balanceModel, txn, ops, spent), IdOf(CreatorAccount(p, pk)));
    CoinOperations(p, balanceModel, txn, ops, spent, pk, AsIs());
    CoinAmounts(p, txn, ops, p.base58(pk));
  }

  lemma CoinAmounts(p: Params, txn: Txn, ops: seq<UtxoOp>, a: string)
    requires SmallCoins(ops)
    ensures CoinWeighs(p, txn, ops, a, AsIs()) == CoinMeans(p, txn, ops, a) - Dropped(p, txn, ops, a)
  {
    hide Sum;
    if txn.meta.AcceptNFTBid? {
      var o := First(ops, IsAcceptNFTBid);
      if o.Some? {
        SaleAmounts(p, o.value.creator, o.value.creatorRoyalty, Some(o.value.circulation), o.value.royalties, a);
      }
    } else if txn.meta.NFTBid? {
      var o := First(ops, IsNFTBid);
      if o.Some? {
        SaleAmounts(p, o.value.creator, o.value.creatorRoyalty, o.value.prevCirculation, o.value.royalties, a);
      }
    }
  }

  lemma SaleAmounts(p: Params, creator: Bytes, royalty: UInt64, circulation: Option<nat>, royalties: seq<Royalty>, a: string)
    ensures SaleWeighs(p, creator, royalty, circulation, royalties, a, AsIs())
            == Due(p, creator, royalty, circulation, royalties, a) - Truncated(p, creator, royalty, circulation, a)
  {
    SumPointwise(royalties, royalties, PaidFn(p, a, AsIs()), RoyaltyFn(p, a));
  }

  /** So an accepted bid pays an address what it owes exactly when every bidder input
      resolves and no share is lost to truncation, or it owes nothing. */
  lemma AcceptedBidPaysExactlyWhen(p: Params, balanceModel: bool, txn: Txn, ops: seq<UtxoOp>,
                                   spent: map<UtxoKey, UInt64>, pk: Bytes)
    requires txn.meta.AcceptNFTBid? && SmallCoins(ops)
    ensures NetD(LeafDrafts(p, balanceModel, txn, ops, spent), IdOf(CreatorAccount(p, pk))) == AcceptDue(p, ops, p.base58(pk)) <==>
            if forall k :: k in txn.meta.bidderInputs ==> InputAmount(p, k, ops).Some?
            then AcceptTruncated(p, ops, p.base58(pk)) == 0
            else AcceptDue(p, ops, p.base58(pk)) == 0
  {
    hide NetD, LeafDrafts, AcceptDue, AcceptTruncated, SmallCoins, InputAmount;
    CoinLedger(p, balanceModel, txn, ops, spent, pk);
  }

  /** A bid with one bidder input that its list does not spend: the creator's royalty
      is recorded and dropped. */
  lemma RoyaltyIsDropped(p: Params, k: UtxoKey, creator: Bytes, royalty: UInt64, circulation: nat)
    requires k.txid != ZERO_HASH && royalty > 0 && circulation % TWO_64 >= p.autoSellThreshold
    ensures var txn := Txn("", creator, [], [], AcceptNFTBid([k]));
            var ops := [AcceptNFTBidOp(creator, creator, royalty, circulation, [])];
            && CoinMeans(p, txn, ops, p.base58(creator)) == royalty
            && NetD(LeafDrafts(p, true, txn, ops, map[]), IdOf(CreatorAccount(p, creator))) == 0
  {
    var txn := Txn("", creator, [], [], AcceptNFTBid([k]));
    var o := AcceptNFTBidOp(creator, creator, royalty, circulation, []);
    hide NetD, LeafDrafts, AcceptDue, Unresolved, First;
    OneRoyaltyDue(p, creator, royalty, circulation);
    OneUnresolved(p, txn, k, o);
    CoinLedger(p, true, txn, [o], map[], creator);
  }

  lemma OneRoyaltyDue(p: Params, creator: Bytes, royalty: UInt64, circulation: nat)
    requires circulation % TWO_64 >= p.autoSellThreshold
    ensures AcceptDue(p, [AcceptNFTBidOp(creator, creator, royalty, circulation, [])], p.base58(creator)) == royalty
  {
    var o := AcceptNFTBidOp(creator, creator, royalty, circulation, []);
    assert First([o], IsAcceptNFTBid) == Some(o);
    NoSum(RoyaltyFn(p, p.base58(creator)));
    hide First, Sum;
  }

  lemma OneUnresolved(p: Params, txn: Txn, k: UtxoKey, o: UtxoOp)
    requires txn.meta == AcceptNFTBid([k]) && k.txid != ZERO_HASH && !o.SpendUtxo?
    ensures Unresolved(p, txn, [o])
  {
    assert k in txn.meta.bidderInputs;
    assert First([o], Spends(k)).None?;
  }

  lemma CoinsOnly(p: Params, txn: Txn, ops: seq<UtxoOp>, a: Account, m: Value)
    requires KindOf(a) == Pool || KindOf(a) == Locked
    ensures CoinNet(p, txn, ops, IdOf(a), m) == 0
  {
    hide WeighAt, OnlyKinds, KindOf, CreatorCoinDrafts, SwapIdentityDrafts, AcceptNFTDrafts, NFTBidDrafts, UpdateProfileDrafts;
    CoinGenerators(p, txn, ops);
    OnlyNet(CreatorCoinDrafts(p, txn, ops), {Coin}, a, m);
    OnlyNet(SwapIdentityDrafts(p, txn, ops), {Coin}, a, m);
    OnlyNet(AcceptNFTDrafts(p, txn, ops), {Main, Coin}, a, m);
    OnlyNet(NFTBidDrafts(p, txn, ops), {Coin}, a, m);
    OnlyNet(UpdateProfileDrafts(p, txn, ops), {Coin}, a, m);
  }

  // ---------------------------------------------------------------- stake pools

  function StakedFn(p: Params, v: string, x: int): UtxoOp -> int {
    (o: UtxoOp) => if o.StakeOp? && o.stakedTo.Some? then Owned(p, o.stakedTo.value, v, x) else 0
  }

  predicate Unstakes(o: UtxoOp) {
    o.UnstakeOp? && o.unstakedFrom.Some? && |o.prevStakers| == 1
  }

  function UnstakedFn(p: Params, v: string, x: int): UtxoOp -> int {
    (o: UtxoOp) => if Unstakes(o) then Owned(p, o.unstakedFrom.value, v, x) else 0
  }

  predicate Fits64(x: Option<nat>) {
    x.Some? && x.value < TWO_64
  }

  /** What the operations on a validator's stake pool are: a stake is an output, an
      unstake an input whose amount is not negated, so it adds to the pool. */
  function PoolWeighs(p: Params, txn: Txn, ops: seq<UtxoOp>, v: string, m: Value): int {
    match txn.meta
    case Stake(x) => if Fits64(x) then Sum(ops, StakedFn(p, v, m(x.value, OutputOp))) else 0
    case Unstake(x) => if Fits64(x) then Sum(ops, UnstakedFn(p, v, m(x.value, InputOp))) else 0
    case _ => 0
  }

  /** What the operations on a locked-stake account are: an unstake is an output, an
      unlock an input whose amount is not negated, so it adds to the entry. */
  function LockedWeighs(p: Params, txn: Txn, ops: seq<UtxoOp>, id: PartialId, m: Value): int {
    match txn.meta
    case Unstake(x) => if Fits64(x) then Sum(ops, RelockedFn(p, id, m(x.value, OutputOp))) else 0
    case UnlockStake => Sum(ops, UnlockedFn(p, id, m))
    case _ => 0
  }

  function RelockedFn(p: Params, id: PartialId, x: int): UtxoOp -> int {
    (o: UtxoOp) =>
      if Unstakes(o) && IdOf(LockedStakeAccount(p, o.prevStakers[0], o.unstakedFrom.value, o.epoch)) == id then x else 0
  }

  function EntryAmountFn(p: Params, id: PartialId, m: Value): LockedStakeEntry -> int {
    (e: LockedStakeEntry) =>
      if e.amount < TWO_64 && IdOf(LockedStakeAccount(p, e.staker, e.validator, e.epoch)) == id then m(e.amount, InputOp) else 0
  }

  function UnlockedFn(p: Params, id: PartialId, m: Value): UtxoOp -> int {
    (o: UtxoOp) => if o.UnlockStakeOp? then Sum(o.prevLocked, EntryAmountFn(p, id, m)) else 0
  }

  function PoolChange(p: Params, txn: Txn, ops: seq<UtxoOp>, v: string): int {
    PoolWeighs(p, txn, ops, v, AsIs())
  }

  function LockedChange(p: Params, txn: Txn, ops: seq<UtxoOp>, id: PartialId): int {
    LockedWeighs(p, txn, ops, id, AsIs())
  }

  lemma StakeNet(p: Params, txn: Txn, ops: seq<UtxoOp>, v: string, m: Value)
    ensures WeighAt(StakeDrafts(p, txn, ops), PartialId(v, VALIDATOR_ENTRY), m)
            == if txn.meta.Stake? then PoolWeighs(p, txn, ops, v, m) else 0
  {
    hide FlatMap, Sum;
    var id := PartialId(v, VALIDATOR_ENTRY);
    SumZero([], SubWeight(id, m));
    if txn.meta.Stake? {
      var x := txn.meta.staked;
      var f := if Fits64(x) then StakedFn(p, v, m(x.value, OutputOp)) else (o: UtxoOp) => 0;
      forall i | 0 <= i < |ops| ensures Sum(StakeDraft(p, x)(ops[i]), SubWeight(id, m)) == f(ops[i]) {
        if StakeDraft(p, x)(ops[i]) != [] {
          OneAt(StakeDraft(p, x)(ops[i])[0], id, m);
        }
      }
      SumFlatMap(ops, StakeDraft(p, x), SubWeight(id, m), f);
      if !Fits64(x) {
        SumZero(ops, f);
      }
    }
  }

  /** One unstake effect credits its pool and its locked entry alike. */
  lemma OneUnstakeNet(p: Params, x: Option<nat>, o: UtxoOp, id: PartialId, m: Value)
    ensures Sum(UnstakeDraft(p, x)(o), SubWeight(id, m)) ==
            if Unstakes(o) && Fits64(x)
            then (if IdOf(ValidatorAccount(p, o.unstakedFrom.value)) == id then m(x.value, InputOp) else 0)
                 + (if IdOf(LockedStakeAccount(p, o.prevStakers[0], o.unstakedFrom.value, o.epoch)) == id
                    then m(x.value, OutputOp) else 0)
            else 0
  {
    hide Sum, LockedStakeAccount, ValidatorAccount;
    SumZero([], SubWeight(id, m));
    var ds := UnstakeDraft(p, x)(o);
    if ds != [] {
      assert ds == [ds[0]] + [ds[1]];
      SumConcat([ds[0]], [ds[1]], SubWeight(id, m));
      OneAt(ds[0], id, m);
      OneAt(ds[1], id, m);
    }
  }

  lemma UnstakeNetPool(p: Params, txn: Txn, ops: seq<UtxoOp>, v: string, m: Value)
    ensures WeighAt(UnstakeDrafts(p, txn, ops), PartialId(v, VALIDATOR_ENTRY), m)
            == if txn.meta.Unstake? then PoolWeighs(p, txn, ops, v, m) else 0
  {
    hide FlatMap, Sum, LockedStakeAccount;
    var id := PartialId(v, VALIDATOR_ENTRY);
    SumZero([], SubWeight(id, m));
    if txn.meta.Unstake? {
      var x := txn.meta.unstaked;
      var f := if Fits64(x) then UnstakedFn(p, v, m(x.value, InputOp)) else (o: UtxoOp) => 0;
      forall i | 0 <= i < |ops| ensures Sum(UnstakeDraft(p, x)(ops[i]), SubWeight(id, m)) == f(ops[i]) {
        OneUnstakeNet(p, x, ops[i], id, m);
        if Unstakes(ops[i]) {
          PoolIsNotLocked(p, v, ops[i].prevStakers[0], ops[i].unstakedFrom.value, ops[i].epoch);
        }
      }
      SumFlatMap(ops, UnstakeDraft(p, x), SubWeight(id, m), f);
      if !Fits64(x) {
        SumZero(ops, f);
      }
    }
  }

  lemma PoolIsNotLocked(p: Params, v: string, staker: Bytes, validator: Bytes, epoch: nat)
    ensures IdOf(LockedStakeAccount(p, staker, validator, epoch)).subAddress != VALIDATOR_ENTRY
  {
    KindsOfAccounts(p, staker, validator, epoch);
  }

  /** Under every value, the operations of a plain transaction on a validator's pool
      are what its stake and unstake effects say, all with a positive sign. */
  lemma PoolOperations(p: Params, balanceModel: bool, txn: Txn, ops: seq<UtxoOp>, spent: map<UtxoKey, UInt64>,
                       validator: Bytes, m: Value)
    ensures WeighAt(LeafDrafts(p, balanceModel, txn, ops, spent), IdOf(ValidatorAccount(p, validator)), m)
            == PoolWeighs(p, txn, ops, p.base58(validator), m)
  {
    hide WeighAt, LeafDrafts, CoinNet, StakeDrafts, UnstakeDrafts, UnlockDrafts, OnlyKinds, KindOf, Sum, StakedFn, UnstakedFn;
    var a, v := ValidatorAccount(p, validator), p.base58(validator);
    KindsOfAccounts(p, validator, validator, 0);
    LeafSubNet(p, balanceModel, txn, ops, spent, a, m);
    CoinsOnly(p, txn, ops, a, m);
    StakeNet(p, txn, ops, v, m);
    UnstakeNetPool(p, txn, ops, v, m);
    StakeGenerators(p, txn, ops);
    OnlyNet(UnlockDrafts(p, txn, ops), {Locked}, a, m);
    if ops == [] && (txn.meta.Stake? || txn.meta.Unstake?) {
      var x := if txn.meta.Stake? then txn.meta.staked else txn.meta.unstaked;
      if Fits64(x) {
        SumZero(ops, StakedFn(p, v, m(x.value, OutputOp)));
        SumZero(ops, UnstakedFn(p, v, m(x.value, InputOp)));
      }
    }
  }

  /** Read as amounts. */
  lemma PoolLedger(p: Params, balanceModel: bool, txn: Txn, ops: seq<UtxoOp>, spent: map<UtxoKey, UInt64>, validator: Bytes)
    ensures NetD(LeafDrafts(p, balanceModel, txn, ops, spent), IdOf(ValidatorAccount(p, validator)))
            == PoolChange(p, txn, ops, p.base58(validator))
  {
    hide WeighAt, NetD, LeafDrafts, PoolWeighs;
    AsIsNet(LeafDrafts(p, balanceModel, txn, ops, spent), IdOf(ValidatorAccount(p, validator)));
    PoolOperations(p, balanceModel, txn, ops, spent, validator, AsIs());
  }

  // ---------------------------------------------------------------- locked stake

  lemma UnstakeNetLocked(p: Params, txn: Txn, ops: seq<UtxoOp>, id: PartialId, m: Value)
    requires id.subAddress != VALIDATOR_ENTRY
    ensures WeighAt(UnstakeDrafts(p, txn, ops), id, m) == if txn.meta.Unstake? then LockedWeighs(p, txn, ops, id, m) else 0
  {
    hide FlatMap, Sum, LockedStakeAccount;
    SumZero([], SubWeight(id, m));
    if txn.meta.Unstake? {
      var x := txn.meta.unstaked;
      var f := if Fits64(x) then RelockedFn(p, id, m(x.value, OutputOp)) else (o: UtxoOp) => 0;
      forall i | 0 <= i < |ops| ensures Sum(UnstakeDraft(p, x)(ops[i]), SubWeight(id, m)) == f(ops[i]) {
        OneUnstakeNet(p, x, ops[i], id, m);
      }
      SumFlatMap(ops, UnstakeDraft(p, x), SubWeight(id, m), f);
      if !Fits64(x) {
        SumZero(ops, f);
      }
    }
  }

  lemma EntriesNet(p: Params, es: seq<LockedStakeEntry>, id: PartialId, m: Value)
    ensures Sum(FlatMap(es, UnlockedDraft(p)), SubWeight(id, m)) == Sum(es, EntryAmountFn(p, id, m))
  {
    hide FlatMap, Sum, LockedStakeAccount;
    forall i | 0 <= i < |es| ensures Sum(UnlockedDraft(p)(es[i]), SubWeight(id, m)) == EntryAmountFn(p, id, m)(es[i]) {
      if UnlockedDraft(p)(es[i]) == [] {
        SumZero([], SubWeight(id, m));
      } else {
        OneAt(UnlockedDraft(p)(es[i])[0], id, m);
      }
    }
    SumFlatMap(es, UnlockedDraft(p), SubWeight(id, m), EntryAmountFn(p, id, m));
  }

  lemma UnlockNet(p: Params, txn: Txn, ops: seq<UtxoOp>, id: PartialId, m: Value)
    ensures WeighAt(UnlockDrafts(p, txn, ops), id, m) == if txn.meta.UnlockStake? then LockedWeighs(p, txn, ops, id, m) else 0
  {
    hide FlatMap, Sum;
    SumZero([], SubWeight(id, m));
    if txn.meta.UnlockStake? {
      forall i | 0 <= i < |ops| ensures Sum(UnlockDraft(p)(ops[i]), SubWeight(id, m)) == UnlockedFn(p, id, m)(ops[i]) {
        if ops[i].UnlockStakeOp? {
          EntriesNet(p, ops[i].prevLocked, id, m);
        }
      }
      SumFlatMap(ops, UnlockDraft(p), SubWeight(id, m), UnlockedFn(p, id, m));
    }
  }

  /** Under every value, the operations of a plain transaction on a locked-stake
      account are what its unstake and unlock effects say, all with a positive sign. */
  lemma LockedOperations(p: Params, balanceModel: bool, txn: Txn, ops: seq<UtxoOp>, spent: map<UtxoKey, UInt64>,
                     staker: Bytes, validator: Bytes, epoch: nat, m: Value)
    ensures var a := LockedStakeAccount(p, staker, validator, epoch);
            WeighAt(LeafDrafts(p, balanceModel, txn, ops, spent), IdOf(a), m) == LockedWeighs(p, txn, ops, IdOf(a), m)
  {
    hide WeighAt, LeafDrafts, CoinNet, StakeDrafts, UnstakeDrafts, UnlockDrafts, OnlyKinds, KindOf, Sum, RelockedFn, UnlockedFn,
         LockedStakeAccount;
    var a := LockedStakeAccount(p, staker, validator, epoch);
    KindsOfAccounts(p, staker, validator, epoch);
    LeafSubNet(p, balanceModel, txn, ops, spent, a, m);
    CoinsOnly(p, txn, ops, a, m);
    StakeGenerators(p, txn, ops);
    OnlyNet(StakeDrafts(p, txn, ops), {Pool}, a, m);
    PoolIsNotLocked(p, "", staker, validator, epoch);
    UnstakeNetLocked(p, txn, ops, IdOf(a), m);
    UnlockNet(p, txn, ops, IdOf(a), m);
    if ops == [] {
      SumZero(ops, UnlockedFn(p, IdOf(a), m));
      if txn.meta.Unstake? && Fits64(txn.meta.unstaked) {
        SumZero(ops, RelockedFn(p, IdOf(a), m(txn.meta.unstaked.value, OutputOp)));
      }
    }
  }

  /** Read as amounts. */
  lemma LockedLedger(p: Params, balanceModel: bool, txn: Txn, ops: seq<UtxoOp>, spent: map<UtxoKey, UInt64>,
                     staker: Bytes, validator: Bytes, epoch: nat)
    ensures NetD(LeafDrafts(p, balanceModel, txn, ops, spent), IdOf(LockedStakeAccount(p, staker, validator, epoch)))
            == LockedChange(p, txn, ops, IdOf(LockedStakeAccount(p, staker, validator, epoch)))
  {
    hide WeighAt, NetD, LeafDrafts, LockedWeighs, LockedStakeAccount;
    AsIsNet(LeafDrafts(p, balanceModel, txn, ops, spent), IdOf(LockedStakeAccount(p, staker, validator, epoch)));
    LockedOperations(p, balanceModel, txn, ops, spent, staker, validator, epoch, AsIs());
  }
}
