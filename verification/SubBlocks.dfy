/** Creator coins, stake pools and locked stake through wrappers, squashing and
    whole blocks. */
module SubBlocks {
  import opened ByteStrings
  import opened Sums
  import opened Int64
  import opened Operations
  import opened Chain
  import opened Translation
  import opened Ledger
  import opened SubAccounts
  import opened BlockLedger

  // ---------------------------------------------------------------- measures of plain transactions, summed over trees

  type Measure = (Txn, seq<UtxoOp>) -> int
  type Test = (Txn, seq<UtxoOp>) -> bool

  /** The sum of a measure over the plain transactions of a tree; a length mismatch
      yields nothing. */
  function TreeSum(m: Measure, txn: Txn, ops: seq<UtxoOp>): int
    decreases txn, 1
  {
    match txn.meta
    case AtomicWrapper(txns) => if |InnerLists(ops)| != |txns| then 0 else TreesSum(m, txns, InnerLists(ops))
    case _ => m(txn, ops)
  }

  function TreesSum(m: Measure, txns: seq<Txn>, lists: seq<OpList>): int
    requires |lists| == |txns|
    decreases txns, 0
  {
    if txns == [] then 0
    else TreesSum(m, txns[..|txns| - 1], lists[..|txns| - 1]) + TreeSum(m, txns[|txns| - 1], lists[|txns| - 1].ops)
  }

  ghost predicate AtLeaves(ok: Test, txn: Txn, ops: seq<UtxoOp>)
    decreases txn, 1
  {
    match txn.meta
    case AtomicWrapper(txns) => |InnerLists(ops)| == |txns| ==> AtAllLeaves(ok, txns, InnerLists(ops))
    case _ => ok(txn, ops)
  }

  ghost predicate AtAllLeaves(ok: Test, txns: seq<Txn>, lists: seq<OpList>)
    requires |lists| == |txns|
    decreases txns, 0
  {
    txns == [] ||
    (AtAllLeaves(ok, txns[..|txns| - 1], lists[..|txns| - 1]) && AtLeaves(ok, txns[|txns| - 1], lists[|txns| - 1].ops))
  }

  /** On plain transactions that pass the test, the measure is what the drafts do to
      the account, in 64-bit amounts. */
  ghost predicate Measures(p: Params, balanceModel: bool, spent: map<UtxoKey, UInt64>, id: PartialId, m: Measure, ok: Test) {
    forall t: Txn, ops: seq<UtxoOp> :: ok(t, ops) ==>
      NetD(LeafDrafts(p, balanceModel, t, ops, spent), id) == m(t, ops)
      && Int64For(LeafDrafts(p, balanceModel, t, ops, spent), id)
  }

  lemma {:induction false} TreeMeasured(p: Params, balanceModel: bool, txn: Txn, ops: seq<UtxoOp>,
                                        spent: map<UtxoKey, UInt64>, id: PartialId, m: Measure, ok: Test)
    requires AtLeaves(ok, txn, ops) && Measures(p, balanceModel, spent, id, m, ok)
    ensures Net(OpsOf(p, balanceModel, txn, ops, spent), id) == TreeSum(m, txn, ops)
    ensures AllInt64(OpsOf(p, balanceModel, txn, ops, spent), id)
    decreases txn, 1
  {
    hide InnerLists, LeafDrafts, NetD, Int64For, Net, AllInt64, Number;
    match txn.meta
    case AtomicWrapper(txns) =>
      if |InnerLists(ops)| == |txns| {
        TreesMeasured(p, balanceModel, txns, InnerLists(ops), spent, id, m, ok);
      } else {
        NothingMeasured(id);
      }
    case _ => LeafMeasured(p, balanceModel, txn, ops, spent, id, m, ok);
  }

  lemma NothingMeasured(id: PartialId)
    ensures Net([], id) == 0 && AllInt64([], id)
  {
  }

  lemma LeafMeasured(p: Params, balanceModel: bool, txn: Txn, ops: seq<UtxoOp>,
                     spent: map<UtxoKey, UInt64>, id: PartialId, m: Measure, ok: Test)
    requires ok(txn, ops) && Measures(p, balanceModel, spent, id, m, ok)
    ensures Net(Number(LeafDrafts(p, balanceModel, txn, ops, spent), 0), id) == m(txn, ops)
    ensures AllInt64(Number(LeafDrafts(p, balanceModel, txn, ops, spent), 0), id)
  {
    hide LeafDrafts, NetD, Net;
    NumberNet(LeafDrafts(p, balanceModel, txn, ops, spent), 0, id);
  }

  lemma {:induction false} TreesMeasured(p: Params, balanceModel: bool, txns: seq<Txn>, lists: seq<OpList>,
                                         spent: map<UtxoKey, UInt64>, id: PartialId, m: Measure, ok: Test)
    requires |lists| == |txns| && AtAllLeaves(ok, txns, lists) && Measures(p, balanceModel, spent, id, m, ok)
    ensures Net(OpsOfAll(p, balanceModel, txns, lists, spent), id) == TreesSum(m, txns, lists)
    ensures AllInt64(OpsOfAll(p, balanceModel, txns, lists, spent), id)
    decreases txns, 0
  {
    hide OpsOf, TreeSum, Measures, Sum;
    NothingMeasured(id);
    if txns != [] {
      var n := |txns| - 1;
      TreesMeasured(p, balanceModel, txns[..n], lists[..n], spent, id, m, ok);
      TreeMeasured(p, balanceModel, txns[n], lists[n].ops, spent, id, m, ok);
      SumConcat(OpsOfAll(p, balanceModel, txns[..n], lists[..n], spent),
                OpsOf(p, balanceModel, txns[n], lists[n].ops, spent), Credit(id));
    }
  }

  /** What a measure says of a tree: transactions are paired with lists as far as
      there are both. */
  function TreeSaid(m: Measure, txn: Txn, ops: seq<UtxoOp>): int
    decreases txn, 1
  {
    match txn.meta
    case AtomicWrapper(txns) => TreesSaid(m, txns, InnerLists(ops))
    case _ => m(txn, ops)
  }

  function TreesSaid(m: Measure, txns: seq<Txn>, lists: seq<OpList>): int
    decreases txns, 0
  {
    if txns == [] then 0
    else
      var i := |txns| - 1;
      TreesSaid(m, txns[..i], lists) + if i < |lists| then TreeSaid(m, txns[i], lists[i].ops) else 0
  }

  /** Every wrapper in the tree has as many inner lists as inner transactions. */
  ghost predicate Paired(txn: Txn, ops: seq<UtxoOp>)
    decreases txn, 1
  {
    match txn.meta
    case AtomicWrapper(txns) => |InnerLists(ops)| == |txns| && AllPaired(txns, InnerLists(ops))
    case _ => true
  }

  ghost predicate AllPaired(txns: seq<Txn>, lists: seq<OpList>)
    requires |lists| == |txns|
    decreases txns, 0
  {
    txns == [] ||
    (AllPaired(txns[..|txns| - 1], lists[..|txns| - 1]) && Paired(txns[|txns| - 1], lists[|txns| - 1].ops))
  }

  lemma {:induction false} ExtraLists(m: Measure, txns: seq<Txn>, lists: seq<OpList>, n: nat)
    requires |txns| <= n <= |lists|
    ensures TreesSaid(m, txns, lists) == TreesSaid(m, txns, lists[..n])
    decreases txns
  {
    if txns != [] {
      ExtraLists(m, txns[..|txns| - 1], lists, n);
    }
  }

  /** Where everything is paired, what is said is what is summed. */
  lemma {:induction false} PairedSays(m: Measure, txn: Txn, ops: seq<UtxoOp>)
    requires Paired(txn, ops)
    ensures TreeSaid(m, txn, ops) == TreeSum(m, txn, ops)
    decreases txn, 1
  {
    hide InnerLists;
    match txn.meta
    case AtomicWrapper(txns) => AllPairedSay(m, txns, InnerLists(ops));
    case _ =>
  }

  lemma {:induction false} AllPairedSay(m: Measure, txns: seq<Txn>, lists: seq<OpList>)
    requires |lists| == |txns| && AllPaired(txns, lists)
    ensures TreesSaid(m, txns, lists) == TreesSum(m, txns, lists)
    decreases txns, 0
  {
    if txns != [] {
      var i := |txns| - 1;
      ExtraLists(m, txns[..i], lists, i);
      AllPairedSay(m, txns[..i], lists[..i]);
      PairedSays(m, txns[i], lists[i].ops);
    }
  }

  /** A measure that is never negative and zero exactly where the test holds. */
  ghost predicate ZeroWhere(m: Measure, ok: Test) {
    forall t: Txn, ops: seq<UtxoOp> :: m(t, ops) >= 0 && (m(t, ops) == 0 <==> ok(t, ops))
  }

  lemma {:induction false} TreeZero(m: Measure, ok: Test, txn: Txn, ops: seq<UtxoOp>)
    requires ZeroWhere(m, ok)
    ensures TreeSum(m, txn, ops) >= 0 && (TreeSum(m, txn, ops) == 0 <==> AtLeaves(ok, txn, ops))
    decreases txn, 1
  {
    hide InnerLists;
    match txn.meta
    case AtomicWrapper(txns) =>
      if |InnerLists(ops)| == |txns| {
        TreesZero(m, ok, txns, InnerLists(ops));
      }
    case _ =>
  }

  lemma {:induction false} TreesZero(m: Measure, ok: Test, txns: seq<Txn>, lists: seq<OpList>)
    requires |lists| == |txns| && ZeroWhere(m, ok)
    ensures TreesSum(m, txns, lists) >= 0 && (TreesSum(m, txns, lists) == 0 <==> AtAllLeaves(ok, txns, lists))
    decreases txns, 0
  {
    hide ZeroWhere;
    if txns != [] {
      TreesZero(m, ok, txns[..|txns| - 1], lists[..|txns| - 1]);
      TreeZero(m, ok, txns[|txns| - 1], lists[|txns| - 1].ops);
    }
  }

  // ---------------------------------------------------------------- and over blocks

  function TxnSum(m: Measure, b: Block, i: nat): int
    requires Indexable(b) && i < |b.txns|
  {
    TreeSum(m, b.txns[i], ListOf(b, i))
  }

  /** The sum of a measure over the first n transactions of a block. */
  function TxnsSum(m: Measure, b: Block, n: nat): int
    requires Indexable(b) && n <= |b.txns|
  {
    if n == 0 then 0 else TxnsSum(m, b, n - 1) + TxnSum(m, b, n - 1)
  }

  /** What 64-bit wrap-around adds to it, transaction by transaction. */
  function TxnsWrap(m: Measure, b: Block, n: nat): int
    requires Indexable(b) && n <= |b.txns|
  {
    if n == 0 then 0 else TxnsWrap(m, b, n - 1) + Wrap64(TxnSum(m, b, n - 1)) - TxnSum(m, b, n - 1)
  }

  function TxnSaid(m: Measure, b: Block, i: nat): int
    requires Indexable(b) && i < |b.txns|
  {
    TreeSaid(m, b.txns[i], ListOf(b, i))
  }

  /** What a measure says of the first n transactions of a block. */
  function TxnsSaid(m: Measure, b: Block, n: nat): int
    requires Indexable(b) && n <= |b.txns|
  {
    if n == 0 then 0 else TxnsSaid(m, b, n - 1) + TxnSaid(m, b, n - 1)
  }

  ghost predicate BlockPaired(b: Block)
    requires Indexable(b)
  {
    forall i :: 0 <= i < |b.txns| ==> Paired(b.txns[i], ListOf(b, i))
  }

  lemma {:induction false} BlockSays(m: Measure, b: Block, n: nat)
    requires Indexable(b) && n <= |b.txns| && BlockPaired(b)
    ensures TxnsSaid(m, b, n) == TxnsSum(m, b, n)
  {
    if n > 0 {
      BlockSays(m, b, n - 1);
      PairedSays(m, b.txns[n - 1], ListOf(b, n - 1));
    }
  }

  lemma {:induction false} BlockZero(m: Measure, ok: Test, b: Block, n: nat)
    requires Indexable(b) && n <= |b.txns| && ZeroWhere(m, ok)
    ensures TxnsSum(m, b, n) >= 0
    ensures TxnsSum(m, b, n) == 0 <==> forall i :: 0 <= i < n ==> AtLeaves(ok, b.txns[i], ListOf(b, i))
  {
    hide ZeroWhere;
    if n > 0 {
      BlockZero(m, ok, b, n - 1);
      TreeZero(m, ok, b.txns[n - 1], ListOf(b, n - 1));
    }
  }

  ghost predicate NoOverflow(m: Measure, b: Block)
    requires Indexable(b)
  {
    forall i :: 0 <= i < |b.txns| ==> IsInt64(TxnSum(m, b, i))
  }

  lemma {:induction false} NoWrap(m: Measure, b: Block, n: nat)
    requires Indexable(b) && n <= |b.txns| && NoOverflow(m, b)
    ensures TxnsWrap(m, b, n) == 0
  {
    if n > 0 {
      NoWrap(m, b, n - 1);
    }
  }

  ghost predicate EveryLeaf(ok: Test, b: Block)
    requires Indexable(b)
  {
    forall i :: 0 <= i < |b.txns| ==> AtLeaves(ok, b.txns[i], ListOf(b, i))
  }

  lemma TxnMeasured(p: Params, b: Block, i: nat, id: PartialId, m: Measure, ok: Test)
    requires Indexable(b) && i < |b.txns| && EveryLeaf(ok, b)
    requires Measures(p, IsBalanceModel(p, b.height), SpentUtxos(b.utxoOps), id, m, ok)
    ensures Net(TxnOf(p, b, i).ops, id) == Wrap64(TxnSum(m, b, i))
  {
    hide OpsOf, Squash, Net, AllInt64, TreeSum, Measures, SpentUtxos, AtLeaves, Wrap64;
    TreeMeasured(p, IsBalanceModel(p, b.height), b.txns[i], ListOf(b, i), SpentUtxos(b.utxoOps), id, m, ok);
    SquashInt64(OpsOf(p, IsBalanceModel(p, b.height), b.txns[i], ListOf(b, i), SpentUtxos(b.utxoOps)), id);
  }

  lemma {:induction false} TxnsMeasured(p: Params, b: Block, n: nat, id: PartialId, m: Measure, ok: Test)
    requires Indexable(b) && n <= |b.txns| && EveryLeaf(ok, b)
    requires Measures(p, IsBalanceModel(p, b.height), SpentUtxos(b.utxoOps), id, m, ok)
    ensures BlockNet(TxnsUpTo(p, b, n), id) == TxnsSum(m, b, n) + TxnsWrap(m, b, n)
  {
    hide BlockNet, TxnsUpTo, TxnSum, Measures, Wrap64, EveryLeaf, Net, TxnOf;
    if n == 0 {
      NoTxns(p, b, id);
    } else {
      TxnsMeasured(p, b, n - 1, id, m, ok);
      TxnMeasured(p, b, n - 1, id, m, ok);
      OneMoreTxn(p, b, n - 1, id);
    }
  }

  // ---------------------------------------------------------------- 64-bit sub-accounts

  lemma OthersInt64(ds: seq<Draft>, ks: set<Kind>, a: Account)
    requires OnlyKinds(ds, ks) && KindOf(a) !in ks
    ensures Int64For(ds, IdOf(a))
  {
  }

  lemma Int64Join(x: seq<Draft>, y: seq<Draft>, id: PartialId)
    requires Int64For(x, id) && Int64For(y, id)
    ensures Int64For(x + y, id)
  {
  }

  ghost predicate SubInt64(p: Params, txn: Txn, ops: seq<UtxoOp>, id: PartialId) {
    && Int64For(CreatorCoinDrafts(p, txn, ops), id) && Int64For(SwapIdentityDrafts(p, txn, ops), id)
    && Int64For(AcceptNFTDrafts(p, txn, ops), id) && Int64For(NFTBidDrafts(p, txn, ops), id)
    && Int64For(UpdateProfileDrafts(p, txn, ops), id) && Int64For(StakeDrafts(p, txn, ops), id)
    && Int64For(UnstakeDrafts(p, txn, ops), id) && Int64For(UnlockDrafts(p, txn, ops), id)
  }

  lemma LeafSubInt64(p: Params, balanceModel: bool, txn: Txn, ops: seq<UtxoOp>, spent: map<UtxoKey, UInt64>, a: Account)
    requires KindOf(a) != Main && SubInt64(p, txn, ops, IdOf(a))
    ensures Int64For(LeafDrafts(p, balanceModel, txn, ops, spent), IdOf(a))
  {
    hide OnlyKinds, KindOf, Int64For, FlatMap, CreatorCoinDrafts, SwapIdentityDrafts, AcceptNFTDrafts, NFTBidDrafts,
         UpdateProfileDrafts, DAOCoinDrafts, StakeDrafts, UnstakeDrafts, UnlockDrafts;
    var id := IdOf(a);
    MainGenerators(p, balanceModel, txn, ops, spent);
    var ins, outs := FlatMap(txn.inputs, InputDraft(p, txn.pk, spent)), if balanceModel then [] else FlatMap(txn.outputs, OutputDraft(p));
    var x1, x2, x8 := FlatMap(ops, SpendDraft(p)), FlatMap(ops, ImplicitDraft(p, NumOutputs(txn))), DAOCoinDrafts(p, txn, ops);
    OthersInt64(ins, {Main}, a);
    OthersInt64(outs, {Main}, a);
    OthersInt64(x1, {Main}, a);
    OthersInt64(x2, {Main}, a);
    OthersInt64(x8, {Main}, a);
    var y3 := x1 + x2 + CreatorCoinDrafts(p, txn, ops);
    var y5 := y3 + SwapIdentityDrafts(p, txn, ops) + AcceptNFTDrafts(p, txn, ops);
    var y7 := y5 + NFTBidDrafts(p, txn, ops) + UpdateProfileDrafts(p, txn, ops);
    var y9 := y7 + x8 + StakeDrafts(p, txn, ops);
    Int64Join(x1, x2, id);
    Int64Join(x1 + x2, CreatorCoinDrafts(p, txn, ops), id);
    Int64Join(y3, SwapIdentityDrafts(p, txn, ops), id);
    Int64Join(y3 + SwapIdentityDrafts(p, txn, ops), AcceptNFTDrafts(p, txn, ops), id);
    Int64Join(y5, NFTBidDrafts(p, txn, ops), id);
    Int64Join(y5 + NFTBidDrafts(p, txn, ops), UpdateProfileDrafts(p, txn, ops), id);
    Int64Join(y7, x8, id);
    Int64Join(y7 + x8, StakeDrafts(p, txn, ops), id);
    Int64Join(y9, UnstakeDrafts(p, txn, ops), id);
    Int64Join(y9 + UnstakeDrafts(p, txn, ops), UnlockDrafts(p, txn, ops), id);
    Int64Join(ins, outs, id);
    Int64Join(ins + outs, SpecialDrafts(p, txn, ops), id);
    assert ins + outs + [] == ins + outs;
  }

  // ---------------------------------------------------------------- creator coins

  /** The amounts that reach creator coins fit in 63 bits. */
  ghost predicate CoinsFit(ops: seq<UtxoOp>) {
    SmallCoins(ops) && forall o :: o in ops ==>
      (o.CreatorCoinOp? ==> IsInt64(o.lockedDiff))
      && (o.AcceptNFTBidOp? ==> o.creatorRoyalty <= MAX_INT64 && forall r :: r in o.royalties ==> r.amount <= MAX_INT64)
      && (o.NFTBidOp? ==> o.creatorRoyalty <= MAX_INT64 && forall r :: r in o.royalties ==> r.amount <= MAX_INT64)
  }

  ghost function CoinTest(): Test {
    (t: Txn, ops: seq<UtxoOp>) => CoinsFit(ops)
  }

  function CoinMeant(p: Params, a: string): Measure {
    (t: Txn, ops: seq<UtxoOp>) => CoinMeans(p, t, ops, a)
  }

  ghost function DroppedMeasure(p: Params, a: string): Measure {
    (t: Txn, ops: seq<UtxoOp>) => Dropped(p, t, ops, a)
  }

  /** What the code gives: what is meant, less the royalties it does not pay. */
  ghost function CoinMeasure(p: Params, a: string): Measure {
    (t: Txn, ops: seq<UtxoOp>) => CoinMeans(p, t, ops, a) - Dropped(p, t, ops, a)
  }

  lemma RoyaltiesInt64(p: Params, rs: seq<Royalty>, id: PartialId)
    requires forall r :: r in rs ==> r.amount <= MAX_INT64
    ensures Int64For(FlatMap(rs, RoyaltyDraft(p)), id)
  {
    hide FlatMap;
    forall i | 0 <= i < |rs| ensures Int64For(RoyaltyDraft(p)(rs[i]), id) {
      assert rs[i] in rs;
    }
    Int64ForFlatMap(rs, RoyaltyDraft(p), id);
  }

  lemma BidsInt64(p: Params, txn: Txn, ops: seq<UtxoOp>, pk: Bytes)
    requires CoinsFit(ops)
    ensures Int64For(AcceptNFTDrafts(p, txn, ops), IdOf(CreatorAccount(p, pk)))
    ensures Int64For(NFTBidDrafts(p, txn, ops), IdOf(CreatorAccount(p, pk)))
  {
    hide FlatMap, BidderDrafts, SmallCoins;
    var id := IdOf(CreatorAccount(p, pk));
    var o, bid := First(ops, IsAcceptNFTBid), First(ops, IsNFTBid);
    if txn.meta.AcceptNFTBid? && o.Some? {
      BidderOnly(p, o.value.bidder, txn.meta.bidderInputs, ops);
      RoyaltiesInt64(p, o.value.royalties, id);
    }
    if bid.Some? {
      RoyaltiesInt64(p, bid.value.royalties, id);
    }
  }

  lemma CoinsInt64(p: Params, txn: Txn, ops: seq<UtxoOp>, pk: Bytes)
    requires CoinsFit(ops)
    ensures SubInt64(p, txn, ops, IdOf(CreatorAccount(p, pk)))
  {
    var a := CreatorAccount(p, pk);
    BidsInt64(p, txn, ops, pk);
    TradesInt64(p, txn, ops, IdOf(a));
    hide CoinsFit, CreatorCoinDrafts, SwapIdentityDrafts, AcceptNFTDrafts, NFTBidDrafts, UpdateProfileDrafts, StakeDrafts,
         UnstakeDrafts, UnlockDrafts, Int64For, OnlyKinds, KindOf;
    KindsOfAccounts(p, pk, pk, 0);
    StakeGenerators(p, txn, ops);
    OthersInt64(StakeDrafts(p, txn, ops), {Pool}, a);
    OthersInt64(UnstakeDrafts(p, txn, ops), {Pool, Locked}, a);
    OthersInt64(UnlockDrafts(p, txn, ops), {Locked}, a);
  }

  lemma TradesInt64(p: Params, txn: Txn, ops: seq<UtxoOp>, id: PartialId)
    requires CoinsFit(ops)
    ensures Int64For(CreatorCoinDrafts(p, txn, ops), id) && Int64For(SwapIdentityDrafts(p, txn, ops), id)
    ensures Int64For(UpdateProfileDrafts(p, txn, ops), id)
  {
    hide Negate64;
  }

  lemma CoinsMeasured(p: Params, balanceModel: bool, spent: map<UtxoKey, UInt64>, pk: Bytes)
    ensures Measures(p, balanceModel, spent, IdOf(CreatorAccount(p, pk)), CoinMeasure(p, p.base58(pk)), CoinTest())
  {
    hide CoinsFit, LeafDrafts, NetD, Int64For, CoinMeans, Dropped, SubInt64;
    forall t: Txn, ops: seq<UtxoOp> | CoinTest()(t, ops)
      ensures NetD(LeafDrafts(p, balanceModel, t, ops, spent), IdOf(CreatorAccount(p, pk))) == CoinMeasure(p, p.base58(pk))(t, ops)
      ensures Int64For(LeafDrafts(p, balanceModel, t, ops, spent), IdOf(CreatorAccount(p, pk)))
    {
      CoinsSmall(ops);
      CoinLedger(p, balanceModel, t, ops, spent, pk);
      CoinsInt64(p, t, ops, pk);
      KindsOfAccounts(p, pk, pk, 0);
      LeafSubInt64(p, balanceModel, t, ops, spent, CreatorAccount(p, pk));
    }
  }

  lemma CoinsSmall(ops: seq<UtxoOp>)
    requires CoinsFit(ops)
    ensures SmallCoins(ops)
  {
  }

  /** A translated block, with its wrappers, squashing and block-level transaction,
      changes each creator coin by what its effects mean, less royalties that are not
      paid, but for 64-bit wrap-around. */
  lemma BlockCoins(p: Params, b: Block, pk: Bytes)
    requires Indexable(b) && EveryLeaf(CoinTest(), b)
    ensures var m := CoinMeasure(p, p.base58(pk));
            BlockNet(Translate(p, b), IdOf(CreatorAccount(p, pk))) == TxnsSum(m, b, |b.txns|) + TxnsWrap(m, b, |b.txns|)
  {
    hide BlockNet, TxnsSum, TxnsWrap, TxnsUpTo, Translate, BlockLevelTxn, Measures, EveryLeaf, Net, KindOf;
    var id := IdOf(CreatorAccount(p, pk));
    CoinsMeasured(p, IsBalanceModel(p, b.height), SpentUtxos(b.utxoOps), pk);
    TxnsMeasured(p, b, |b.txns|, id, CoinMeasure(p, p.base58(pk)), CoinTest());
    TranslateNet(p, b, id);
    KindsOfAccounts(p, pk, pk, 0);
    if HasBlockLevel(b) {
      BlockLevelTxnTouches(p, b, CreatorAccount(p, pk));
    }
  }

  // ---------------------------------------------------------------- stake pools

  /** Staked and unstaked amounts fit in 63 bits. */
  function PoolTest(): Test {
    (t: Txn, ops: seq<UtxoOp>) =>
      match t.meta
      case Stake(x) => x.Some? ==> x.value <= MAX_INT64
      case Unstake(x) => x.Some? ==> x.value <= MAX_INT64
      case _ => true
  }

  function PoolMeasure(p: Params, v: string): Measure {
    (t: Txn, ops: seq<UtxoOp>) => PoolChange(p, t, ops, v)
  }

  lemma PoolsInt64(p: Params, txn: Txn, ops: seq<UtxoOp>, pk: Bytes)
    requires PoolTest()(txn, ops)
    ensures SubInt64(p, txn, ops, IdOf(ValidatorAccount(p, pk)))
  {
    var a := ValidatorAccount(p, pk);
    StakesInt64(p, txn, ops, IdOf(a));
    hide CreatorCoinDrafts, SwapIdentityDrafts, AcceptNFTDrafts, NFTBidDrafts, UpdateProfileDrafts, StakeDrafts,
         UnstakeDrafts, UnlockDrafts, Int64For, OnlyKinds, KindOf;
    KindsOfAccounts(p, pk, pk, 0);
    CoinGenerators(p, txn, ops);
    StakeGenerators(p, txn, ops);
    OthersInt64(CreatorCoinDrafts(p, txn, ops), {Coin}, a);
    OthersInt64(SwapIdentityDrafts(p, txn, ops), {Coin}, a);
    OthersInt64(AcceptNFTDrafts(p, txn, ops), {Main, Coin}, a);
    OthersInt64(NFTBidDrafts(p, txn, ops), {Coin}, a);
    OthersInt64(UpdateProfileDrafts(p, txn, ops), {Coin}, a);
    OthersInt64(UnlockDrafts(p, txn, ops), {Locked}, a);
  }

  lemma StakesInt64(p: Params, txn: Txn, ops: seq<UtxoOp>, id: PartialId)
    requires PoolTest()(txn, ops)
    ensures Int64For(StakeDrafts(p, txn, ops), id) && Int64For(UnstakeDrafts(p, txn, ops), id)
  {
    hide FlatMap, Decimal;
    if txn.meta.Stake? {
      Int64ForFlatMap(ops, StakeDraft(p, txn.meta.staked), id);
    }
    if txn.meta.Unstake? {
      Int64ForFlatMap(ops, UnstakeDraft(p, txn.meta.unstaked), id);
    }
  }

  lemma PoolsMeasured(p: Params, balanceModel: bool, spent: map<UtxoKey, UInt64>, pk: Bytes)
    ensures Measures(p, balanceModel, spent, IdOf(ValidatorAccount(p, pk)), PoolMeasure(p, p.base58(pk)), PoolTest())
  {
    hide PoolTest, LeafDrafts, NetD, Int64For, PoolChange, SubInt64;
    forall t: Txn, ops: seq<UtxoOp> | PoolTest()(t, ops)
      ensures NetD(LeafDrafts(p, balanceModel, t, ops, spent), IdOf(ValidatorAccount(p, pk))) == PoolMeasure(p, p.base58(pk))(t, ops)
      ensures Int64For(LeafDrafts(p, balanceModel, t, ops, spent), IdOf(ValidatorAccount(p, pk)))
    {
      PoolLedger(p, balanceModel, t, ops, spent, pk);
      PoolsInt64(p, t, ops, pk);
      KindsOfAccounts(p, pk, pk, 0);
      LeafSubInt64(p, balanceModel, t, ops, spent, ValidatorAccount(p, pk));
    }
  }

  function Restaked(p: Params, b: Block, v: string): int {
    if HasBlockLevel(b) then Sum(b.utxoOps[|b.txns|].ops, RestakeFn(p, v)) else 0
  }

  /** A translated block changes each stake pool by its stakes, its unstakes (with
      a positive sign) and its restaked rewards, but for 64-bit wrap-around. */
  lemma BlockPools(p: Params, b: Block, pk: Bytes)
    requires Indexable(b) && EveryLeaf(PoolTest(), b)
    requires HasBlockLevel(b) ==> SmallRestakes(b.utxoOps[|b.txns|].ops)
    ensures var m, v := PoolMeasure(p, p.base58(pk)), p.base58(pk);
            BlockNet(Translate(p, b), IdOf(ValidatorAccount(p, pk)))
            == TxnsSum(m, b, |b.txns|) + TxnsWrap(m, b, |b.txns|) + Wrap64(Restaked(p, b, v))
  {
    hide BlockNet, TxnsSum, TxnsWrap, TxnsUpTo, Translate, BlockLevelTxn, Measures, EveryLeaf, Net, Sum, Wrap64;
    var id := IdOf(ValidatorAccount(p, pk));
    PoolsMeasured(p, IsBalanceModel(p, b.height), SpentUtxos(b.utxoOps), pk);
    TxnsMeasured(p, b, |b.txns|, id, PoolMeasure(p, p.base58(pk)), PoolTest());
    TranslateNet(p, b, id);
    if HasBlockLevel(b) {
      BlockLevelTxnRestakes(p, b, pk);
    }
  }

  /** What a plain transaction should do to a pool: an unstake takes from it. */
  function PoolMeant(p: Params, txn: Txn, ops: seq<UtxoOp>, v: string): int {
    match txn.meta
    case Stake(x) => if Fits64(x) then Sum(ops, StakedFn(p, v, x.value)) else 0
    case Unstake(x) => if Fits64(x) then 0 - Sum(ops, UnstakedFn(p, v, x.value)) else 0
    case _ => 0
  }

  function MeantMeasure(p: Params, v: string): Measure {
    (t: Txn, ops: seq<UtxoOp>) => PoolMeant(p, t, ops, v)
  }

  function TwiceUnstaked(p: Params, v: string): Measure {
    (t: Txn, ops: seq<UtxoOp>) => PoolChange(p, t, ops, v) - PoolMeant(p, t, ops, v)
  }

  /** The sign of an unstake is off by twice the amount. */
  lemma TwiceUnstakedIs(p: Params, txn: Txn, ops: seq<UtxoOp>, v: string)
    ensures TwiceUnstaked(p, v)(txn, ops) ==
            if txn.meta.Unstake? && Fits64(txn.meta.unstaked) then 2 * Sum(ops, UnstakedFn(p, v, txn.meta.unstaked.value)) else 0
    ensures TwiceUnstaked(p, v)(txn, ops) >= 0
  {
    if txn.meta.Unstake? && Fits64(txn.meta.unstaked) {
      SumAtLeast(ops, UnstakedFn(p, v, txn.meta.unstaked.value));
    }
  }

  lemma {:induction false} TreeSumPlus(f: Measure, g: Measure, h: Measure, txn: Txn, ops: seq<UtxoOp>)
    requires forall t: Txn, os: seq<UtxoOp> :: f(t, os) == g(t, os) + h(t, os)
    ensures TreeSum(f, txn, ops) == TreeSum(g, txn, ops) + TreeSum(h, txn, ops)
    decreases txn, 1
  {
    hide InnerLists;
    match txn.meta
    case AtomicWrapper(txns) =>
      if |InnerLists(ops)| == |txns| {
        TreesSumPlus(f, g, h, txns, InnerLists(ops));
      }
    case _ =>
  }

  lemma {:induction false} TreesSumPlus(f: Measure, g: Measure, h: Measure, txns: seq<Txn>, lists: seq<OpList>)
    requires |lists| == |txns| && forall t: Txn, os: seq<UtxoOp> :: f(t, os) == g(t, os) + h(t, os)
    ensures TreesSum(f, txns, lists) == TreesSum(g, txns, lists) + TreesSum(h, txns, lists)
    decreases txns, 0
  {
    if txns != [] {
      TreesSumPlus(f, g, h, txns[..|txns| - 1], lists[..|txns| - 1]);
      TreeSumPlus(f, g, h, txns[|txns| - 1], lists[|txns| - 1].ops);
    }
  }

  lemma {:induction false} TxnsSumPlus(f: Measure, g: Measure, h: Measure, b: Block, n: nat)
    requires forall t: Txn, os: seq<UtxoOp> :: f(t, os) == g(t, os) + h(t, os)
    requires Indexable(b) && n <= |b.txns|
    ensures TxnsSum(f, b, n) == TxnsSum(g, b, n) + TxnsSum(h, b, n)
  {
    if n > 0 {
      TxnsSumPlus(f, g, h, b, n - 1);
      TreeSumPlus(f, g, h, b.txns[n - 1], ListOf(b, n - 1));
    }
  }

  // ---------------------------------------------------------------- locked stake

  /** Unstaked and released amounts fit in 63 bits, or are not translated at all. */
  function LockedTest(): Test {
    (t: Txn, ops: seq<UtxoOp>) =>
      match t.meta
      case Unstake(x) => x.Some? ==> x.value <= MAX_INT64
      case UnlockStake =>
        forall i :: 0 <= i < |ops| && ops[i].UnlockStakeOp? ==>
          forall j :: 0 <= j < |ops[i].prevLocked| ==>
            ops[i].prevLocked[j].amount <= MAX_INT64 || ops[i].prevLocked[j].amount >= TWO_64
      case _ => true
  }

  function LockedMeasure(p: Params, id: PartialId): Measure {
    (t: Txn, ops: seq<UtxoOp>) => LockedChange(p, t, ops, id)
  }

  lemma LockedInt64(p: Params, txn: Txn, ops: seq<UtxoOp>, staker: Bytes, validator: Bytes, epoch: nat)
    requires LockedTest()(txn, ops)
    ensures SubInt64(p, txn, ops, IdOf(LockedStakeAccount(p, staker, validator, epoch)))
  {
    var a := LockedStakeAccount(p, staker, validator, epoch);
    ReleasesInt64(p, txn, ops, IdOf(a));
    hide CreatorCoinDrafts, SwapIdentityDrafts, AcceptNFTDrafts, NFTBidDrafts, UpdateProfileDrafts, StakeDrafts,
         UnstakeDrafts, UnlockDrafts, Int64For, OnlyKinds, KindOf, LockedStakeAccount;
    KindsOfAccounts(p, staker, validator, epoch);
    CoinGenerators(p, txn, ops);
    StakeGenerators(p, txn, ops);
    OthersInt64(CreatorCoinDrafts(p, txn, ops), {Coin}, a);
    OthersInt64(SwapIdentityDrafts(p, txn, ops), {Coin}, a);
    OthersInt64(AcceptNFTDrafts(p, txn, ops), {Main, Coin}, a);
    OthersInt64(NFTBidDrafts(p, txn, ops), {Coin}, a);
    OthersInt64(UpdateProfileDrafts(p, txn, ops), {Coin}, a);
    OthersInt64(StakeDrafts(p, txn, ops), {Pool}, a);
  }

  lemma ReleasesInt64(p: Params, txn: Txn, ops: seq<UtxoOp>, id: PartialId)
    requires LockedTest()(txn, ops)
    ensures Int64For(UnstakeDrafts(p, txn, ops), id) && Int64For(UnlockDrafts(p, txn, ops), id)
  {
    hide FlatMap, Decimal, LockedStakeAccount;
    if txn.meta.Unstake? {
      Int64ForFlatMap(ops, UnstakeDraft(p, txn.meta.unstaked), id);
    }
    if txn.meta.UnlockStake? {
      forall i | 0 <= i < |ops| ensures Int64For(UnlockDraft(p)(ops[i]), id) {
        if ops[i].UnlockStakeOp? {
          Int64ForFlatMap(ops[i].prevLocked, UnlockedDraft(p), id);
        }
      }
      Int64ForFlatMap(ops, UnlockDraft(p), id);
    }
  }

  lemma LockedMeasured(p: Params, balanceModel: bool, spent: map<UtxoKey, UInt64>, staker: Bytes, validator: Bytes, epoch: nat)
    ensures var id := IdOf(LockedStakeAccount(p, staker, validator, epoch));
            Measures(p, balanceModel, spent, id, LockedMeasure(p, id), LockedTest())
  {
    hide LockedTest, LeafDrafts, NetD, Int64For, LockedChange, SubInt64, LockedStakeAccount;
    var a := LockedStakeAccount(p, staker, validator, epoch);
    forall t: Txn, ops: seq<UtxoOp> | LockedTest()(t, ops)
      ensures NetD(LeafDrafts(p, balanceModel, t, ops, spent), IdOf(a)) == LockedMeasure(p, IdOf(a))(t, ops)
      ensures Int64For(LeafDrafts(p, balanceModel, t, ops, spent), IdOf(a))
    {
      LockedLedger(p, balanceModel, t, ops, spent, staker, validator, epoch);
      LockedInt64(p, t, ops, staker, validator, epoch);
      KindsOfAccounts(p, staker, validator, epoch);
      LeafSubInt64(p, balanceModel, t, ops, spent, a);
    }
  }

  /** A translated block changes each locked-stake account by its unstakes and unlocks,
      all with a positive sign, but for 64-bit wrap-around. */
  lemma BlockLocked(p: Params, b: Block, staker: Bytes, validator: Bytes, epoch: nat)
    requires Indexable(b) && EveryLeaf(LockedTest(), b)
    ensures var id := IdOf(LockedStakeAccount(p, staker, validator, epoch));
            var m := LockedMeasure(p, id);
            BlockNet(Translate(p, b), id) == TxnsSum(m, b, |b.txns|) + TxnsWrap(m, b, |b.txns|)
  {
    hide BlockNet, TxnsSum, TxnsWrap, TxnsUpTo, Translate, BlockLevelTxn, Measures, EveryLeaf, Net, KindOf, LockedStakeAccount;
    var a := LockedStakeAccount(p, staker, validator, epoch);
    LockedMeasured(p, IsBalanceModel(p, b.height), SpentUtxos(b.utxoOps), staker, validator, epoch);
    TxnsMeasured(p, b, |b.txns|, IdOf(a), LockedMeasure(p, IdOf(a)), LockedTest());
    TranslateNet(p, b, IdOf(a));
    KindsOfAccounts(p, staker, validator, epoch);
    if HasBlockLevel(b) {
      BlockLevelTxnTouches(p, b, a);
    }
  }

  // ---------------------------------------------------------------- meaning and drift of a block

  /** Creator coins of an address: what a block means, by how much it is off. */
  function CoinMeaning(p: Params, b: Block, a: string): int {
    if Indexable(b) then TxnsSaid(CoinMeant(p, a), b, |b.txns|) else 0
  }

  ghost function CoinDrift(p: Params, b: Block, a: string): int {
    if Indexable(b)
    then TxnsSum(CoinMeasure(p, a), b, |b.txns|) + TxnsWrap(CoinMeasure(p, a), b, |b.txns|)
         - TxnsSaid(CoinMeant(p, a), b, |b.txns|)
    else 0
  }

  ghost predicate CoinsAccounted(b: Block) {
    Indexable(b) && EveryLeaf(CoinTest(), b)
  }

  lemma BlockHasItsCoins(p: Params, b: Block, pk: Bytes)
    requires CoinsAccounted(b)
    ensures BlockNet(Translate(p, b), IdOf(CreatorAccount(p, pk))) == CoinMeaning(p, b, p.base58(pk)) + CoinDrift(p, b, p.base58(pk))
  {
    hide BlockNet, TxnsSum, TxnsWrap, TxnsSaid, EveryLeaf, CoinMeasure, Translate;
    BlockCoins(p, b, pk);
  }

  /** The code pays a plain transaction's royalties to an address in full: an accepted
      bid has resolved inputs or owes nothing, and no share that is due is lost to the
      truncation of the circulation. */
  ghost function PaysTest(p: Params, a: string): Test {
    (t: Txn, ops: seq<UtxoOp>) =>
      && (t.meta.AcceptNFTBid? ==> if Unresolved(p, t, ops) then AcceptDue(p, ops, a) == 0 else AcceptTruncated(p, ops, a) == 0)
      && (t.meta.NFTBid? ==> BidTruncated(p, ops, a) == 0)
  }

  lemma DroppedZeroWhere(p: Params, a: string)
    ensures ZeroWhere(DroppedMeasure(p, a), PaysTest(p, a))
  {
    hide Unresolved, AcceptDue, AcceptTruncated, BidTruncated;
    forall t: Txn, ops: seq<UtxoOp>
      ensures DroppedMeasure(p, a)(t, ops) >= 0 && (DroppedMeasure(p, a)(t, ops) == 0 <==> PaysTest(p, a)(t, ops))
    {
      DueAtLeast(p, ops, a);
    }
  }

  /** Short of overflow, and with inner lists for all inner transactions, a block is
      off for a creator coin by the royalties that are due and not paid; so exactly
      when one of its plain transactions fails to pay some. */
  lemma CoinDriftExactlyWhen(p: Params, b: Block, a: string)
    requires Indexable(b) && BlockPaired(b) && NoOverflow(CoinMeasure(p, a), b)
    ensures CoinDrift(p, b, a) == 0 - TxnsSum(DroppedMeasure(p, a), b, |b.txns|)
    ensures CoinDrift(p, b, a) == 0 <==> EveryLeaf(PaysTest(p, a), b)
  {
    hide TxnsSum, TxnsWrap, TxnsSaid, BlockPaired, NoOverflow, ZeroWhere, PaysTest;
    NoWrap(CoinMeasure(p, a), b, |b.txns|);
    BlockSays(CoinMeant(p, a), b, |b.txns|);
    TxnsSumPlus(CoinMeant(p, a), CoinMeasure(p, a), DroppedMeasure(p, a), b, |b.txns|);
    DroppedZeroWhere(p, a);
    BlockZero(DroppedMeasure(p, a), PaysTest(p, a), b, |b.txns|);
  }

  /** Stake pools: an unstake should take from the pool. */
  function PoolMeaning(p: Params, b: Block, v: string): int {
    if Indexable(b) then TxnsSaid(MeantMeasure(p, v), b, |b.txns|) + Restaked(p, b, v) else 0
  }

  function PoolDrift(p: Params, b: Block, v: string): int {
    if Indexable(b)
    then TxnsSum(PoolMeasure(p, v), b, |b.txns|) + TxnsWrap(PoolMeasure(p, v), b, |b.txns|)
         - TxnsSaid(MeantMeasure(p, v), b, |b.txns|) + Wrap64(Restaked(p, b, v)) - Restaked(p, b, v)
    else 0
  }

  ghost predicate PoolsAccounted(b: Block) {
    Indexable(b) && EveryLeaf(PoolTest(), b) && (HasBlockLevel(b) ==> SmallRestakes(b.utxoOps[|b.txns|].ops))
  }

  lemma BlockHasItsPools(p: Params, b: Block, pk: Bytes)
    requires PoolsAccounted(b)
    ensures BlockNet(Translate(p, b), IdOf(ValidatorAccount(p, pk))) == PoolMeaning(p, b, p.base58(pk)) + PoolDrift(p, b, p.base58(pk))
  {
    hide BlockNet, TxnsSum, TxnsWrap, TxnsSaid, EveryLeaf, Translate, Wrap64, Restaked, SmallRestakes;
    BlockPools(p, b, pk);
  }

  /** A plain transaction does not unstake from this pool: it is no unstake of a
      positive 64-bit amount, or none of its effects names the pool. */
  predicate NoUnstake(p: Params, v: string, txn: Txn, ops: seq<UtxoOp>) {
    txn.meta.Unstake? && Fits64(txn.meta.unstaked) && txn.meta.unstaked.value > 0 ==>
      forall o :: o in ops && Unstakes(o) ==> p.base58(o.unstakedFrom.value) != v
  }

  function NoUnstakeTest(p: Params, v: string): Test {
    (t: Txn, ops: seq<UtxoOp>) => NoUnstake(p, v, t, ops)
  }

  lemma UnstakeZero(p: Params, txn: Txn, ops: seq<UtxoOp>, v: string)
    ensures TwiceUnstaked(p, v)(txn, ops) >= 0 && (TwiceUnstaked(p, v)(txn, ops) == 0 <==> NoUnstake(p, v, txn, ops))
  {
    hide Sum;
    TwiceUnstakedIs(p, txn, ops, v);
    if txn.meta.Unstake? && Fits64(txn.meta.unstaked) {
      var x := txn.meta.unstaked.value;
      SumAtLeast(ops, UnstakedFn(p, v, x));
      assert forall i :: 0 <= i < |ops| ==>
          (UnstakedFn(p, v, x)(ops[i]) == 0 <==> x == 0 || !Unstakes(ops[i]) || p.base58(ops[i].unstakedFrom.value) != v);
      assert forall o :: o in ops <==> exists i :: 0 <= i < |ops| && ops[i] == o;
    }
  }

  lemma UnstakeZeroWhere(p: Params, v: string)
    ensures ZeroWhere(TwiceUnstaked(p, v), NoUnstakeTest(p, v))
  {
    hide NoUnstake, PoolChange, PoolMeant;
    forall t: Txn, ops: seq<UtxoOp>
      ensures TwiceUnstaked(p, v)(t, ops) >= 0 && (TwiceUnstaked(p, v)(t, ops) == 0 <==> NoUnstakeTest(p, v)(t, ops))
    {
      UnstakeZero(p, t, ops, v);
    }
  }

  /** Short of overflow, and with inner lists for all inner transactions, a block is
      off for a pool by twice what it unstakes from it; so exactly when one of its
      plain transactions unstakes from the pool. */
  lemma PoolDriftExactlyWhen(p: Params, b: Block, v: string)
    requires Indexable(b) && BlockPaired(b) && NoOverflow(PoolMeasure(p, v), b) && IsInt64(Restaked(p, b, v))
    ensures PoolDrift(p, b, v) == TxnsSum(TwiceUnstaked(p, v), b, |b.txns|)
    ensures PoolDrift(p, b, v) == 0 <==> EveryLeaf(NoUnstakeTest(p, v), b)
  {
    hide TxnsSum, TxnsWrap, TxnsSaid, BlockPaired, NoOverflow, ZeroWhere, NoUnstakeTest, Restaked;
    NoWrap(PoolMeasure(p, v), b, |b.txns|);
    BlockSays(MeantMeasure(p, v), b, |b.txns|);
    TxnsSumPlus(PoolMeasure(p, v), MeantMeasure(p, v), TwiceUnstaked(p, v), b, |b.txns|);
    UnstakeZeroWhere(p, v);
    BlockZero(TwiceUnstaked(p, v), NoUnstakeTest(p, v), b, |b.txns|);
  }
}
