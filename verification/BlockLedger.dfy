/** Whole blocks: what the served transactions of a translated block do to an
    account, against the effects recorded for the block. */
module BlockLedger {
  import opened ByteStrings
  import opened Sums
  import opened Int64
  import opened Operations
  import opened Chain
  import opened Translation
  import opened Ledger
  import opened Trees
  import opened SubAccounts

  // ---------------------------------------------------------------- the map of spent outputs

  ghost predicate SpentBy(lists: seq<OpList>, i: int, e: UtxoEntry) {
    0 <= i < |lists| && SpendUtxo(e) in lists[i].ops
  }

  /** No output is spent by two of a block's lists, or at two amounts. */
  ghost predicate SpendsOnce(lists: seq<OpList>) {
    forall i, j, e, f :: SpentBy(lists, i, e) && SpentBy(lists, j, f) && e.key == f.key ==> i == j && e == f
  }

  lemma {:induction false} SpentInIs(ops: seq<UtxoOp>, m: map<UtxoKey, UInt64>, k: UtxoKey)
    ensures k in m ==> k in SpentIn(ops, m)
    ensures forall e :: SpendUtxo(e) in ops && e.key == k ==> k in SpentIn(ops, m)
    ensures k in SpentIn(ops, m) ==>
              (k in m && SpentIn(ops, m)[k] == m[k])
              || exists e :: SpendUtxo(e) in ops && e.key == k && e.amount == SpentIn(ops, m)[k]
  {
    if ops != [] {
      var init, o := ops[..|ops| - 1], ops[|ops| - 1];
      SpentInIs(init, m, k);
      assert ops == init + [o];
      if o.SpendUtxo? && o.spent.key == k {
        assert o == SpendUtxo(o.spent) && o in ops;
      }
    }
  }

  lemma {:induction false} SpentUtxosIs(lists: seq<OpList>, k: UtxoKey)
    ensures forall i, e :: SpentBy(lists, i, e) && e.key == k ==> k in SpentUtxos(lists)
    ensures k in SpentUtxos(lists) ==> exists i, e :: SpentBy(lists, i, e) && e.key == k && e.amount == SpentUtxos(lists)[k]
  {
    if lists != [] {
      var n := |lists| - 1;
      var init := lists[..n];
      SpentUtxosIs(init, k);
      SpentInIs(lists[n].ops, SpentUtxos(init), k);
      assert forall i, e :: SpentBy(init, i, e) ==> SpentBy(lists, i, e);
      assert forall i, e :: SpentBy(lists, i, e) && i < n ==> SpentBy(init, i, e);
      assert forall e :: SpendUtxo(e) in lists[n].ops ==> SpentBy(lists, n, e);
    }
  }

  /** The map the translation builds first holds exactly the outputs that the
      block's own lists spend, each at its recorded amount. */
  lemma SpentUtxosRecord(lists: seq<OpList>)
    requires SpendsOnce(lists)
    ensures forall k :: k in SpentUtxos(lists) <==> exists i, e :: SpentBy(lists, i, e) && e.key == k
    ensures forall i, e :: SpentBy(lists, i, e) ==> e.key in SpentUtxos(lists) && SpentUtxos(lists)[e.key] == e.amount
  {
    forall k ensures k in SpentUtxos(lists) <==> exists i, e :: SpentBy(lists, i, e) && e.key == k {
      SpentUtxosIs(lists, k);
    }
    forall i, e | SpentBy(lists, i, e) ensures e.key in SpentUtxos(lists) && SpentUtxos(lists)[e.key] == e.amount {
      SpentUtxosIs(lists, e.key);
    }
  }

  /** So every input of a block's transaction is found there. */
  lemma BlockInputsKnown(p: Params, balanceModel: bool, b: Block, i: nat)
    requires Indexable(b) && i < |b.txns| && SpendsOnce(b.utxoOps)
    requires LeafAccounts(p, balanceModel, b.txns[i], ListOf(b, i))
    ensures InputsKnown(b.txns[i], ListOf(b, i), SpentUtxos(b.utxoOps))
  {
    var txn, ops, spent := b.txns[i], ListOf(b, i), SpentUtxos(b.utxoOps);
    hide LeafAccounts, SpentUtxos, SpendsOnce, Recorded;
    SpentUtxosRecord(b.utxoOps);
    forall k | k in txn.inputs ensures k in spent && spent[k] == Recorded(ops, k) {
      var e := InputIsSpent(p, balanceModel, txn, ops, k);
      assert SpentBy(b.utxoOps, i, e);
    }
  }

  lemma InputIsSpent(p: Params, balanceModel: bool, txn: Txn, ops: seq<UtxoOp>, k: UtxoKey) returns (e: UtxoEntry)
    requires LeafAccounts(p, balanceModel, txn, ops) && k in txn.inputs
    ensures SpendUtxo(e) in ops && e.key == k && Recorded(ops, k) == e.amount
  {
    hide Recorded;
    assert Claim(k, txn.pk) in Claims(txn, ops) by {
      var x :| 0 <= x < |txn.inputs| && txn.inputs[x] == k;
      assert Claims(txn, ops)[x] == Claim(k, txn.pk);
    }
    e := ClaimIsSpent(p, balanceModel, txn, ops, Claim(k, txn.pk));
    var j :| 0 <= j < |ops| && ops[j] == SpendUtxo(e);
    RecordedIs(ops, j);
  }

  // ---------------------------------------------------------------- whole blocks

  function NetFn(id: PartialId): TxnView -> int {
    (t: TxnView) => Net(t.ops, id)
  }

  /** What the transactions of a served block do to one account. */
  function BlockNet(ts: seq<TxnView>, id: PartialId): int {
    Sum(ts, NetFn(id))
  }

  lemma OneMoreTxn(p: Params, b: Block, i: nat, id: PartialId)
    requires Indexable(b) && i < |b.txns|
    ensures BlockNet(TxnsUpTo(p, b, i + 1), id) == BlockNet(TxnsUpTo(p, b, i), id) + Net(TxnOf(p, b, i).ops, id)
  {
    hide Sum, Net, TxnOf, ListOf, TxnsUpTo;
    TxnsNext(p, b, i);
    SumConcat(TxnsUpTo(p, b, i), [TxnOf(p, b, i)], NetFn(id));
    OneSum(TxnOf(p, b, i), NetFn(id));
  }

  lemma NoTxns(p: Params, b: Block, id: PartialId)
    requires Indexable(b)
    ensures BlockNet(TxnsUpTo(p, b, 0), id) == 0
  {
  }

  lemma TranslateNet(p: Params, b: Block, id: PartialId)
    requires Indexable(b)
    ensures BlockNet(Translate(p, b), id)
            == BlockNet(TxnsUpTo(p, b, |b.txns|), id) + if HasBlockLevel(b) then Net(BlockLevelTxn(p, b).ops, id) else 0
  {
    hide Sum, Net, TxnsUpTo, BlockLevelTxn;
    if HasBlockLevel(b) {
      SumConcat(TxnsUpTo(p, b, |b.txns|), [BlockLevelTxn(p, b)], NetFn(id));
      OneSum(BlockLevelTxn(p, b), NetFn(id));
    } else {
      assert TxnsUpTo(p, b, |b.txns|) + [] == TxnsUpTo(p, b, |b.txns|);
    }
  }

  /** A block's lists account for its transactions, and there are as many of them,
      but for the block-level list. */
  ghost predicate BlockAccounts(p: Params, b: Block) {
    && Indexable(b)
    && (|b.utxoOps| == 0 || |b.utxoOps| == |b.txns| || HasBlockLevel(b))
    && (forall i :: 0 <= i < |b.txns| ==> Accounts(p, b.height >= p.balanceModelHeight, b.txns[i], ListOf(b, i)))
  }

  /** What the operations of transaction i of the block weigh. */
  function TxnDone(p: Params, b: Block, i: nat, w: Weight): int
    requires Indexable(b) && i < |b.txns|
  {
    Done(p, b.txns[i], ListOf(b, i), SpentUtxos(b.utxoOps), w)
  }

  function TxnMissing(p: Params, b: Block, i: nat, w: Weight): int
    requires Indexable(b) && i < |b.txns|
  {
    TreeMissing(p, b.txns[i], ListOf(b, i), SpentUtxos(b.utxoOps), w)
  }

  /** By how much a transaction of the block is off for an address: through what is
      missing from its translation, and through squashing. */
  function TxnDrift(p: Params, b: Block, i: nat, a: string): int
    requires Indexable(b) && i < |b.txns|
  {
    Merged(TxnDone(p, b, i, CountAt(a)), TxnDone(p, b, i, At(a)), TxnDone(p, b, i, ParsedAt(a)))
    - LedgerOfList(p, ListOf(b, i), At(a))
  }

  function TxnsDrift(p: Params, b: Block, n: nat, a: string): int
    requires Indexable(b) && n <= |b.txns|
  {
    if n == 0 then 0 else TxnsDrift(p, b, n - 1, a) + TxnDrift(p, b, n - 1, a)
  }

  lemma TxnLedger(p: Params, b: Block, i: nat, a: string)
    requires BlockAccounts(p, b) && Indexable(b) && i < |b.txns|
    ensures Net(TxnOf(p, b, i).ops, MainId(a)) == LedgerOfList(p, ListOf(b, i), At(a)) + TxnDrift(p, b, i, a)
  {
    hide Accounts, LedgerOfList, Net, Squash, OpsOf, SpentUtxos, TreeMissing, Merged, Done;
    SquashedTreeLedger(p, IsBalanceModel(p, b.height), b.txns[i], ListOf(b, i), SpentUtxos(b.utxoOps), a);
  }

  /** When a transaction of the block is not off for an address: with at most one
      operation there, if nothing is missing; with more, if what its effects say is
      a 64-bit number and differs from the parsed weight by a multiple of 2^64. */
  lemma TxnDriftlessExactlyWhen(p: Params, b: Block, i: nat, a: string)
    requires Indexable(b) && i < |b.txns|
    ensures var said := LedgerOfList(p, ListOf(b, i), At(a));
            TxnDrift(p, b, i, a) == 0 <==>
            if TxnDone(p, b, i, CountAt(a)) <= 1 then TxnMissing(p, b, i, At(a)) == 0
            else IsInt64(said) && (said - TxnDone(p, b, i, ParsedAt(a))) % 0x1_0000_0000_0000_0000 == 0
  {
    hide LedgerOfList, TreeMissing, Wrap64;
    WrapsTo(LedgerOfList(p, ListOf(b, i), At(a)), TxnDone(p, b, i, ParsedAt(a)));
  }

  /** A wrapper whose inner inputs the block's own lists do not spend is off, short of
      overflow, by exactly the inner inputs that the address owns. */
  lemma WrapperDriftsByInputs(p: Params, b: Block, i: nat, a: string)
    requires BlockAccounts(p, b) && Indexable(b) && i < |b.txns|
    requires AbsentInside(p, b.txns[i], ListOf(b, i), SpentUtxos(b.utxoOps)) && AllSmall(ListOf(b, i))
    requires IsInt64(LedgerOfList(p, ListOf(b, i), At(a)) + InputsOwned(p, b.txns[i], ListOf(b, i), a))
    ensures TxnDrift(p, b, i, a) == InputsOwned(p, b.txns[i], ListOf(b, i), a) >= 0
  {
    hide LedgerOfList, TreeMissing, InputsOwned, AbsentInside, AllSmall, CountsAt, Accounts, SpentUtxos;
    var bm, spent := IsBalanceModel(p, b.height), SpentUtxos(b.utxoOps);
    WeightsCount(a);
    AbsentMissing(p, bm, b.txns[i], ListOf(b, i), spent, a, At(a));
    AbsentMissing(p, bm, b.txns[i], ListOf(b, i), spent, a, ParsedAt(a));
    SmallListParses(p, ListOf(b, i), a);
    OwnedAtLeast(p, b.txns[i], ListOf(b, i), a);
  }

  /** A plain transaction's own list has small amounts, agrees with the genesis block
      and holds no wrapper effect. */
  ghost predicate PlainList(p: Params, txn: Txn, ops: seq<UtxoOp>) {
    AllSmall(ops) && GenesisRecorded(p, txn, ops) && forall i :: 0 <= i < |ops| ==> !ops[i].AtomicWrapperOp?
  }

  /** Nothing is missing from such a transaction of the block, if no output of the
      block is spent twice. */
  lemma OwnInputsNotMissing(p: Params, b: Block, i: nat, w: Weight)
    requires BlockAccounts(p, b) && Indexable(b) && SpendsOnce(b.utxoOps)
    requires i < |b.txns| && !b.txns[i].meta.AtomicWrapper? && PlainList(p, b.txns[i], ListOf(b, i))
    ensures TxnMissing(p, b, i, w) == 0
  {
    hide AllSmall, SpentUtxos, SpendsOnce, Missing, InputsKnown, LeafAccounts, GenesisRecorded;
    BlockInputsKnown(p, IsBalanceModel(p, b.height), b, i);
    KnownTree(p, IsBalanceModel(p, b.height), b.txns[i], ListOf(b, i), SpentUtxos(b.utxoOps), w);
  }

  lemma {:induction false} TxnsLedger(p: Params, b: Block, n: nat, a: string)
    requires BlockAccounts(p, b) && Indexable(b) && n <= |b.txns|
    ensures BlockNet(TxnsUpTo(p, b, n), MainId(a))
            == (if |b.utxoOps| == 0 then 0 else LedgerOfLists(p, b.utxoOps[..n], At(a))) + TxnsDrift(p, b, n, a)
  {
    hide BlockNet, TxnsUpTo, BlockAccounts, LedgerOfList, Net, TxnOf, MainId, HasBlockLevel, TxnDrift;
    if n == 0 {
      NoTxns(p, b, MainId(a));
    } else {
      var i := n - 1;
      TxnsLedger(p, b, i, a);
      TxnLedger(p, b, i, a);
      OneMoreTxn(p, b, i, MainId(a));
      if |b.utxoOps| > 0 {
        assert b.utxoOps[..n][..i] == b.utxoOps[..i];
      } else {
        EmptyLedger(p, At(a));
      }
    }
  }

  lemma EmptyLedger(p: Params, w: Weight)
    ensures LedgerOfList(p, [], w) == 0
  {
  }

  // ---------------------------------------------------------------- the block-level transaction

  /** What the block-level transaction does not translate. */
  function SkippedFn(p: Params, w: Weight): UtxoOp -> int {
    (o: UtxoOp) => if o.SpendUtxo? || o.SpendBalance? || o.AtomicWrapperOp? then LedgerOf(p, o, w) else 0
  }

  /** Every list's effects are what the block-level transaction credits and what it skips. */
  lemma {:induction false} CreditedOrSkipped(p: Params, ops: seq<UtxoOp>, w: Weight)
    ensures LedgerOfList(p, ops, w) == Sum(ops, ImplicitFn(p, 0, w)) + Sum(ops, SkippedFn(p, w))
  {
    if ops != [] {
      var o := ops[|ops| - 1];
      CreditedOrSkipped(p, ops[..|ops| - 1], w);
      if !o.AtomicWrapperOp? {
        LedgerOfFlat(p, o, 0, w);
        OneCreditedOrSkipped(p, o, w);
      }
    }
  }

  lemma OneCreditedOrSkipped(p: Params, o: UtxoOp, w: Weight)
    requires !o.AtomicWrapperOp?
    ensures LedgerOf(p, o, w) == ImplicitFn(p, 0, w)(o) + SkippedFn(p, w)(o)
  {
  }

  /** The drafts of the block-level transaction, for every list: main accounts get
      exactly the added entries, added balances and paid rewards. */
  lemma BlockLevelCredits(p: Params, ops: seq<UtxoOp>, w: Weight)
    ensures Weigh(BlockLevelDrafts(p, ops), w) == Credits(p, ops, w)
  {
    hide FlatMap, Sum;
    ImplicitNet(p, 0, ops, w);
    RestakesSubOnly(p, ops, w);
    SumConcat(FlatMap(ops, ImplicitDraft(p, 0)), FlatMap(ops, RestakeDraft(p)), MainWeight(w));
  }

  lemma RestakesSubOnly(p: Params, ops: seq<UtxoOp>, w: Weight)
    ensures SubOnly(FlatMap(ops, RestakeDraft(p))) && Weigh(FlatMap(ops, RestakeDraft(p)), w) == 0
  {
    SubOnlyFlatMap(ops, RestakeDraft(p));
    SubOnlyWeight(FlatMap(ops, RestakeDraft(p)), w);
  }

  /** What the block-level list credits to main accounts. */
  function Credits(p: Params, ops: seq<UtxoOp>, w: Weight): int {
    Sum(ops, ImplicitFn(p, 0, w))
  }

  /** The extra transaction credits a main account exactly the added entries, added
      balances and paid rewards of its list, squashed, whatever else the list holds;
      what it skips are spends and wrappers. */
  lemma BlockLevelTxnLedger(p: Params, b: Block, a: string)
    requires HasBlockLevel(b)
    ensures var ops := b.utxoOps[|b.txns|].ops;
            && Net(BlockLevelTxn(p, b).ops, MainId(a))
               == Merged(Credits(p, ops, CountAt(a)), Credits(p, ops, At(a)), Credits(p, ops, ParsedAt(a)))
            && Credits(p, ops, At(a)) == LedgerOfList(p, ops, At(a)) - Sum(ops, SkippedFn(p, At(a)))
  {
    var ops := b.utxoOps[|b.txns|].ops;
    var ds := BlockLevelDrafts(p, ops);
    hide BlockLevelDrafts, Weigh, WeighOps, Net, Squash, LedgerOfList, Sum, Merged;
    BlockLevelCredits(p, ops, At(a));
    BlockLevelCredits(p, ops, ParsedAt(a));
    BlockLevelCredits(p, ops, CountAt(a));
    NumberWeight(ds, 0, At(a));
    NumberWeight(ds, 0, ParsedAt(a));
    NumberWeight(ds, 0, CountAt(a));
    CreditedOrSkipped(p, ops, At(a));
    SquashedWeights(Number(ds, 0), a);
  }

  function LevelDrift(p: Params, b: Block, a: string): int
    requires HasBlockLevel(b)
  {
    var ops := b.utxoOps[|b.txns|].ops;
    Merged(Credits(p, ops, CountAt(a)), Credits(p, ops, At(a)), Credits(p, ops, ParsedAt(a))) - LedgerOfList(p, ops, At(a))
  }

  lemma LevelLedger(p: Params, b: Block, a: string)
    requires HasBlockLevel(b)
    ensures Net(BlockLevelTxn(p, b).ops, MainId(a)) == LedgerOfList(p, b.utxoOps[|b.txns|].ops, At(a)) + LevelDrift(p, b, a)
  {
    hide BlockLevelTxn, Net, LedgerOfList, Sum, Merged;
    BlockLevelTxnLedger(p, b, a);
  }

  /** It touches no creator coin and no locked stake. */
  lemma BlockLevelTxnTouches(p: Params, b: Block, account: Account)
    requires HasBlockLevel(b) && (KindOf(account) == Coin || KindOf(account) == Locked)
    ensures Net(BlockLevelTxn(p, b).ops, IdOf(account)) == 0
  {
    var ops := b.utxoOps[|b.txns|].ops;
    var ds := BlockLevelDrafts(p, ops);
    hide Squash, Net, NetD, FlatMap, Decimal;
    OnlyFlatMap(ops, ImplicitDraft(p, 0), {Main, Pool});
    OnlyFlatMap(ops, RestakeDraft(p), {Main, Pool});
    assert OnlyKinds(ds, {Main, Pool});
    OnlyNet(ds, {Main, Pool}, account, AsIs());
    AsIsNet(ds, IdOf(account));
    NumberNet(ds, 0, IdOf(account));
    NoneOf(ds, {Main, Pool}, account);
    SquashInt64(Number(ds, 0), IdOf(account));
  }

  lemma NoneOf(ds: seq<Draft>, ks: set<Kind>, account: Account)
    requires OnlyKinds(ds, ks) && KindOf(account) !in ks
    ensures AllInt64(Number(ds, 0), IdOf(account))
  {
  }

  function RestakeFn(p: Params, validator: string): UtxoOp -> int {
    (o: UtxoOp) => if o.Restake? then Owned(p, o.restaked, validator, o.amount) else 0
  }

  ghost predicate SmallRestakes(ops: seq<UtxoOp>) {
    forall o :: o in ops && o.Restake? ==> o.amount <= MAX_INT64
  }

  /** The extra transaction credits a validator's stake by the restaked rewards,
      wrapped to 64 bits. */
  lemma BlockLevelTxnRestakes(p: Params, b: Block, validator: Bytes)
    requires HasBlockLevel(b) && SmallRestakes(b.utxoOps[|b.txns|].ops)
    ensures Net(BlockLevelTxn(p, b).ops, IdOf(ValidatorAccount(p, validator)))
            == Wrap64(Sum(b.utxoOps[|b.txns|].ops, RestakeFn(p, p.base58(validator))))
  {
    var ops, id := b.utxoOps[|b.txns|].ops, IdOf(ValidatorAccount(p, validator));
    hide BlockLevelDrafts, NetD, Net, Squash, Sum, SmallRestakes;
    RestakeNet(p, ops, validator);
    NumberNet(BlockLevelDrafts(p, ops), 0, id);
    SquashInt64(Number(BlockLevelDrafts(p, ops), 0), id);
  }

  /** The operations of the block-level list on a validator's pool: one output per
      restaked reward, under every value. */
  lemma RestakeOperations(p: Params, ops: seq<UtxoOp>, validator: Bytes, m: Value)
    ensures WeighAt(BlockLevelDrafts(p, ops), IdOf(ValidatorAccount(p, validator)), m)
            == Sum(ops, RestakeValue(p, p.base58(validator), m))
  {
    var id := IdOf(ValidatorAccount(p, validator));
    var pays, restakes := FlatMap(ops, ImplicitDraft(p, 0)), FlatMap(ops, RestakeDraft(p));
    PaysNothing(p, ops, id, m);
    hide Sum, FlatMap;
    ConcatAt(pays, restakes, id, m);
    forall i | 0 <= i < |ops|
      ensures Sum(RestakeDraft(p)(ops[i]), SubWeight(id, m)) == RestakeValue(p, p.base58(validator), m)(ops[i])
    {
      if ops[i].Restake? {
        OneAt(RestakeDraft(p)(ops[i])[0], id, m);
        assert RestakeValue(p, p.base58(validator), m)(ops[i])
               == Owned(p, ops[i].restaked, p.base58(validator), m(ops[i].amount, OutputOp));
      } else {
        SumZero([], SubWeight(id, m));
      }
    }
    SumFlatMap(ops, RestakeDraft(p), SubWeight(id, m), RestakeValue(p, p.base58(validator), m));
  }

  function RestakeValue(p: Params, validator: string, m: Value): UtxoOp -> int {
    (o: UtxoOp) => if o.Restake? then Owned(p, o.restaked, validator, m(o.amount, OutputOp)) else 0
  }

  /** Payments go to main accounts. */
  lemma PaysNothing(p: Params, ops: seq<UtxoOp>, id: PartialId, m: Value)
    requires id.subAddress != ""
    ensures WeighAt(FlatMap(ops, ImplicitDraft(p, 0)), id, m) == 0
    ensures Int64For(FlatMap(ops, ImplicitDraft(p, 0)), id)
  {
    MainOnlyFlatMap(ops, ImplicitDraft(p, 0));
    hide FlatMap;
    var ds := FlatMap(ops, ImplicitDraft(p, 0));
    assert forall i :: 0 <= i < |ds| ==> IdOf(ds[i].account) != id;
    SumZero(ds, SubWeight(id, m));
  }

  lemma RestakeNet(p: Params, ops: seq<UtxoOp>, validator: Bytes)
    requires SmallRestakes(ops)
    ensures NetD(BlockLevelDrafts(p, ops), IdOf(ValidatorAccount(p, validator))) == Sum(ops, RestakeFn(p, p.base58(validator)))
    ensures Int64For(BlockLevelDrafts(p, ops), IdOf(ValidatorAccount(p, validator)))
  {
    var id := IdOf(ValidatorAccount(p, validator));
    PaysNothing(p, ops, id, AsIs());
    RestakesInt64(p, ops, id);
    hide FlatMap, Sum, NetD, WeighAt;
    AsIsNet(BlockLevelDrafts(p, ops), id);
    RestakeOperations(p, ops, validator, AsIs());
    SumPointwise(ops, ops, RestakeFn(p, p.base58(validator)), RestakeValue(p, p.base58(validator), AsIs()));
  }

  lemma RestakesInt64(p: Params, ops: seq<UtxoOp>, id: PartialId)
    requires SmallRestakes(ops)
    ensures Int64For(FlatMap(ops, RestakeDraft(p)), id)
  {
    hide FlatMap;
    Int64ForFlatMap(ops, RestakeDraft(p), id);
  }

  lemma {:induction false} MainOnlyFlatMap<T>(xs: seq<T>, f: T -> seq<Draft>)
    requires forall x, i :: 0 <= i < |f(x)| ==> f(x)[i].account.sub.None?
    ensures forall i :: 0 <= i < |FlatMap(xs, f)| ==> FlatMap(xs, f)[i].account.sub.None?
  {
    if xs != [] {
      MainOnlyFlatMap(xs[..|xs| - 1], f);
    }
  }

  // ---------------------------------------------------------------- the law of a translated block

  /** By how much a translated block is off for an address. */
  function BlockDrift(p: Params, b: Block, a: string): int
    requires Indexable(b)
  {
    TxnsDrift(p, b, |b.txns|, a) + if HasBlockLevel(b) then LevelDrift(p, b, a) else 0
  }

  /** A translated block changes each main account by what its recorded effects
      say, block-level rewards included, plus its drift; so by exactly what they
      say if and only if the drift is zero. */
  lemma BlockMeansItsEffects(p: Params, b: Block, a: string)
    requires BlockAccounts(p, b)
    ensures BlockNet(Translate(p, b), MainId(a)) == LedgerOfLists(p, b.utxoOps, At(a)) + BlockDrift(p, b, a)
  {
    var n := |b.txns|;
    hide BlockNet, TxnsDrift, TxnsUpTo, Accounts, LedgerOfList, Net, BlockLevelTxn, LevelDrift, Translate, MainId;
    TxnsLedger(p, b, n, a);
    TranslateNet(p, b, MainId(a));
    if HasBlockLevel(b) {
      LevelLedger(p, b, a);
      assert b.utxoOps[..|b.utxoOps| - 1] == b.utxoOps[..n];
    } else if |b.utxoOps| > 0 {
      assert b.utxoOps[..n] == b.utxoOps;
    }
  }

  /** A block that is free of drift for an address: no output is spent twice, amounts
      are small, nothing is missing inside wrappers, what each list says is a 64-bit
      number, and the block-level list spends nothing of it. */
  ghost predicate Driftless(p: Params, b: Block, a: string) {
    && BlockAccounts(p, b) && SpendsOnce(b.utxoOps)
    && (forall i :: 0 <= i < |b.utxoOps| ==> AllSmall(b.utxoOps[i].ops) && IsInt64(LedgerOfList(p, b.utxoOps[i].ops, At(a))))
    && (forall i :: 0 <= i < |b.txns| ==>
          if b.txns[i].meta.AtomicWrapper? then KnownInside(p, b.txns[i], ListOf(b, i), SpentUtxos(b.utxoOps))
          else PlainList(p, b.txns[i], ListOf(b, i)))
    && (HasBlockLevel(b) ==> Sum(b.utxoOps[|b.txns|].ops, SkippedFn(p, At(a))) == 0)
  }

  lemma DriftlessBlock(p: Params, b: Block, a: string)
    requires Driftless(p, b, a)
    ensures BlockDrift(p, b, a) == 0
  {
    hide Accounts, AllSmall, LedgerOfList, SpendsOnce, Sum, KnownInside, PlainList, TxnDrift;
    DriftlessTxns(p, b, |b.txns|, a);
    if HasBlockLevel(b) {
      DriftlessLevel(p, b, a);
    }
  }

  lemma DriftlessLevel(p: Params, b: Block, a: string)
    requires HasBlockLevel(b) && AllSmall(b.utxoOps[|b.txns|].ops)
    requires IsInt64(LedgerOfList(p, b.utxoOps[|b.txns|].ops, At(a))) && Sum(b.utxoOps[|b.txns|].ops, SkippedFn(p, At(a))) == 0
    ensures LevelDrift(p, b, a) == 0
  {
    hide Sum, LedgerOfList, LedgerOf;
    var ops := b.utxoOps[|b.txns|].ops;
    CreditedOrSkipped(p, ops, At(a));
    CreditsParse(p, ops, a);
  }

  lemma CreditsParse(p: Params, ops: seq<UtxoOp>, a: string)
    requires AllSmall(ops)
    ensures Credits(p, ops, ParsedAt(a)) == Credits(p, ops, At(a))
  {
    hide Sum;
    forall i | 0 <= i < |ops| ensures ImplicitFn(p, 0, ParsedAt(a))(ops[i]) == ImplicitFn(p, 0, At(a))(ops[i]) {
      assert SmallAmount(ops[i]);
    }
    SumPointwise(ops, ops, ImplicitFn(p, 0, ParsedAt(a)), ImplicitFn(p, 0, At(a)));
  }

  lemma DriftlessTxn(p: Params, b: Block, i: nat, a: string)
    requires Driftless(p, b, a) && Indexable(b) && i < |b.txns|
    ensures TxnDrift(p, b, i, a) == 0
  {
    NothingMissing(p, b, i, a, At(a));
    NothingMissing(p, b, i, a, ParsedAt(a));
    EmptyLedger(p, At(a));
    hide BlockAccounts, TreeMissing, SpendsOnce, Sum, SpentUtxos, LedgerOfList, PlainList, KnownInside;
    SmallListParses(p, ListOf(b, i), a);
  }

  lemma NothingMissing(p: Params, b: Block, i: nat, a: string, w: Weight)
    requires Driftless(p, b, a) && Indexable(b) && i < |b.txns|
    ensures TxnMissing(p, b, i, w) == 0
  {
    hide Accounts, SpendsOnce, Sum, SpentUtxos, LedgerOfList, PlainList, KnownInside, AllSmall, TreeMissing;
    if b.txns[i].meta.AtomicWrapper? {
      KnownTree(p, IsBalanceModel(p, b.height), b.txns[i], ListOf(b, i), SpentUtxos(b.utxoOps), w);
    } else {
      OwnInputsNotMissing(p, b, i, w);
    }
  }

  lemma {:induction false} DriftlessTxns(p: Params, b: Block, n: nat, a: string)
    requires Driftless(p, b, a) && Indexable(b) && n <= |b.txns|
    ensures TxnsDrift(p, b, n, a) == 0
  {
    hide Driftless, TxnDrift;
    if n > 0 {
      DriftlessTxns(p, b, n - 1, a);
      DriftlessTxn(p, b, n - 1, a);
    }
  }

  // ---------------------------------------------------------------- blocks without recorded effects

  /** A block for which no effects were recorded, as none are for the genesis
      block: its outputs are all that happens. */
  ghost predicate Unrecorded(p: Params, b: Block) {
    && |b.utxoOps| == 0 && b.height < p.balanceModelHeight
    && forall i :: 0 <= i < |b.txns| ==> !b.txns[i].meta.AtomicWrapper?
  }

  function OutputsOf(p: Params, txn: Txn, a: string): int {
    Sum(txn.outputs, OutFn(p, At(a)))
  }

  function OutputsTo(p: Params, txns: seq<Txn>, a: string): int {
    if txns == [] then 0 else OutputsTo(p, txns[..|txns| - 1], a) + OutputsOf(p, txns[|txns| - 1], a)
  }

  /** What such a transaction's operations weigh: inputs at zero, and outputs. */
  function UnrecordedDone(p: Params, txn: Txn, w: Weight): int {
    Sum(txn.inputs, ZeroFn(p, txn.pk, w)) + Sum(txn.outputs, OutFn(p, w))
  }

  function ZeroFn(p: Params, pk: Bytes, w: Weight): UtxoKey -> int {
    (k: UtxoKey) => w(p.base58(pk), 0, InputOp)
  }

  /** By how much such a block is off: through squashing. */
  function OutputsDrift(p: Params, txns: seq<Txn>, a: string): int {
    if txns == [] then 0 else OutputsDrift(p, txns[..|txns| - 1], a) + UnrecordedDrift(p, txns[|txns| - 1], a)
  }

  function UnrecordedDrift(p: Params, txn: Txn, a: string): int {
    Merged(UnrecordedDone(p, txn, CountAt(a)), UnrecordedDone(p, txn, At(a)), UnrecordedDone(p, txn, ParsedAt(a)))
    - OutputsOf(p, txn, a)
  }

  lemma UnrecordedTxn(p: Params, txn: Txn, a: string)
    requires !txn.meta.AtomicWrapper?
    ensures Net(Squash(OpsOf(p, false, txn, [], map[])), MainId(a)) == OutputsOf(p, txn, a) + UnrecordedDrift(p, txn, a)
  {
    var ds := LeafDrafts(p, false, txn, [], map[]);
    hide LeafDrafts, Net, Weigh, WeighOps, Squash, Sum, Merged, UnrecordedDone;
    UnrecordedDrafts(p, txn, At(a));
    UnrecordedDrafts(p, txn, ParsedAt(a));
    UnrecordedDrafts(p, txn, CountAt(a));
    NumberWeight(ds, 0, At(a));
    NumberWeight(ds, 0, ParsedAt(a));
    NumberWeight(ds, 0, CountAt(a));
    SquashedWeights(Number(ds, 0), a);
  }

  lemma UnrecordedDrafts(p: Params, txn: Txn, w: Weight)
    ensures Weigh(LeafDrafts(p, false, txn, [], map[]), w) == UnrecordedDone(p, txn, w)
  {
    hide FlatMap, Sum;
    var ins, outs := FlatMap(txn.inputs, InputDraft(p, txn.pk, map[])), FlatMap(txn.outputs, OutputDraft(p));
    UnknownInputs(p, txn, w);
    OutputNet(p, txn.outputs, w);
    SumConcat(ins, outs, MainWeight(w));
    assert ins + outs + [] == ins + outs;
  }

  /** Inputs that nothing recorded count as zero. */
  lemma UnknownInputs(p: Params, txn: Txn, w: Weight)
    ensures Weigh(FlatMap(txn.inputs, InputDraft(p, txn.pk, map[])), w) == Sum(txn.inputs, ZeroFn(p, txn.pk, w))
  {
    hide Negate64, FlatMap, Sum;
    forall i | 0 <= i < |txn.inputs|
      ensures Sum(InputDraft(p, txn.pk, map[])(txn.inputs[i]), MainWeight(w)) == ZeroFn(p, txn.pk, w)(txn.inputs[i])
    {
      var d := Draft(MainAccount(p, txn.pk), Negate64(0), InputOp);
      assert InputDraft(p, txn.pk, map[])(txn.inputs[i]) == [d];
      assert MainWeight(w)(d) == w(p.base58(txn.pk), 0, InputOp);
      OneSum(d, MainWeight(w));
    }
    SumFlatMap(txn.inputs, InputDraft(p, txn.pk, map[]), MainWeight(w), ZeroFn(p, txn.pk, w));
  }

  /** A block without recorded effects changes each main account by its outputs,
      squashed transaction by transaction. */
  lemma {:induction false} UnrecordedLedger(p: Params, b: Block, n: nat, a: string)
    requires Unrecorded(p, b) && n <= |b.txns|
    ensures BlockNet(TxnsUpTo(p, b, n), MainId(a)) == OutputsTo(p, b.txns[..n], a) + OutputsDrift(p, b.txns[..n], a)
  {
    hide BlockNet, TxnsUpTo, Net, Squash, OpsOf, MainId, OutputsOf, UnrecordedDrift;
    if n == 0 {
      NoTxns(p, b, MainId(a));
    } else {
      var i := n - 1;
      UnrecordedLedger(p, b, i, a);
      UnrecordedTxn(p, b.txns[i], a);
      assert SpentUtxos([]) == map[];
      OneMoreTxn(p, b, i, MainId(a));
      assert b.txns[..n][..i] == b.txns[..i];
    }
  }

  /** A block the ledger accounts for, what it then means for an address, and by how
      much its translation is off. */
  ghost predicate Accounted(p: Params, b: Block) {
    BlockAccounts(p, b) || Unrecorded(p, b)
  }

  ghost function Meaning(p: Params, b: Block, a: string): int {
    if Unrecorded(p, b) then OutputsTo(p, b.txns, a) else LedgerOfLists(p, b.utxoOps, At(a))
  }

  ghost function Drift(p: Params, b: Block, a: string): int {
    if Unrecorded(p, b) then OutputsDrift(p, b.txns, a) else if Indexable(b) then BlockDrift(p, b, a) else 0
  }

  lemma BlockHasItsMeaning(p: Params, b: Block, a: string)
    requires Accounted(p, b)
    ensures Indexable(b) && BlockNet(Translate(p, b), MainId(a)) == Meaning(p, b, a) + Drift(p, b, a)
  {
    hide BlockNet, OutputsTo, OutputsDrift, LedgerOfLists, Accounts, BlockDrift, Net;
    if Unrecorded(p, b) {
      UnrecordedLedger(p, b, |b.txns|, a);
      assert b.txns[..|b.txns|] == b.txns;
      TranslateNet(p, b, MainId(a));
    } else {
      BlockMeansItsEffects(p, b, a);
    }
  }

  // ---------------------------------------------------------------- completeness

  /** One transaction per block transaction, in order, and one more exactly when
      the block carries one more list. */
  lemma TranslationIsComplete(p: Params, b: Block)
    requires Indexable(b)
    ensures |Translate(p, b)| == |b.txns| + if |b.utxoOps| == |b.txns| + 1 then 1 else 0
    ensures forall i :: 0 <= i < |b.txns| ==> Translate(p, b)[i].hash == b.txns[i].hash
    ensures |b.utxoOps| == |b.txns| + 1 ==> Translate(p, b)[|b.txns|].hash == "blockHash-" + b.hash
    ensures forall i :: 0 <= i < |Translate(p, b)| ==> Squashed(Translate(p, b)[i].ops)
  {
    hide Squashed, FirstOccurrences, Squash, OpsOf, BlockLevelDrafts;
    forall i | 0 <= i < |b.txns| ensures Squashed(TxnOf(p, b, i).ops) {
      SquashShape(OpsOf(p, IsBalanceModel(p, b.height), b.txns[i], ListOf(b, i), SpentUtxos(b.utxoOps)));
    }
    if HasBlockLevel(b) {
      SquashShape(Number(BlockLevelDrafts(p, b.utxoOps[|b.txns|].ops), 0));
    }
    hide TxnOf;
  }

  // ---------------------------------------------------------------- numbering

  /** Which operation of which inner transaction stands at position k. */
  ghost predicate FromInner(p: Params, balanceModel: bool, txns: seq<Txn>, lists: seq<OpList>, spent: map<UtxoKey, UInt64>,
                            k: nat, i: nat, j: nat)
    requires |lists| == |txns| && k < |OpsOfAll(p, balanceModel, txns, lists, spent)|
  {
    && i < |txns| && j < |OpsOf(p, balanceModel, txns[i], lists[i].ops, spent)|
    && k == |OpsOfAll(p, balanceModel, txns[..i], lists[..i], spent)| + j
    && OpsOfAll(p, balanceModel, txns, lists, spent)[k] == OpsOf(p, balanceModel, txns[i], lists[i].ops, spent)[j]
  }

  lemma {:induction false} InnerOpAt(p: Params, balanceModel: bool, txns: seq<Txn>, lists: seq<OpList>,
                                     spent: map<UtxoKey, UInt64>, k: nat) returns (i: nat, j: nat)
    requires |lists| == |txns| && k < |OpsOfAll(p, balanceModel, txns, lists, spent)|
    ensures FromInner(p, balanceModel, txns, lists, spent, k, i, j)
  {
    hide OpsOf;
    var n := |txns| - 1;
    var before := OpsOfAll(p, balanceModel, txns[..n], lists[..n], spent);
    if k < |before| {
      i, j := InnerOpAt(p, balanceModel, txns[..n], lists[..n], spent, k);
      assert txns[..n][..i] == txns[..i] && lists[..n][..i] == lists[..i];
    } else {
      i, j := n, k - |before|;
    }
  }

  /** Operation k of a plain transaction has index k, across inputs, outputs and
      all generators. A wrapper strings together what its inner transactions
      translate to, each numbered on its own; squashing renumbers from zero. */
  lemma NumberingThreads(p: Params, balanceModel: bool, txn: Txn, ops: seq<UtxoOp>, spent: map<UtxoKey, UInt64>, k: nat)
    requires k < |OpsOf(p, balanceModel, txn, ops, spent)|
    ensures !txn.meta.AtomicWrapper? ==> OpsOf(p, balanceModel, txn, ops, spent)[k].index == k
    ensures txn.meta.AtomicWrapper? ==>
              |InnerLists(ops)| == |txn.meta.txns|
              && exists i, j :: FromInner(p, balanceModel, txn.meta.txns, InnerLists(ops), spent, k, i, j)
    ensures var s := Squash(OpsOf(p, balanceModel, txn, ops, spent));
            0 < |s| <= |OpsOf(p, balanceModel, txn, ops, spent)| && (k < |s| ==> s[k].index == k)
  {
    hide LeafDrafts, InnerLists, Squash, FromInner;
    var all := OpsOf(p, balanceModel, txn, ops, spent);
    SquashShape(all);
    SquashLength(all);
    FirstOfIsFirst(all, IdOf(all[k].account));
    if txn.meta.AtomicWrapper? {
      var i, j := InnerOpAt(p, balanceModel, txn.meta.txns, InnerLists(ops), spent, k);
    }
  }

  lemma {:induction false} SquashLength(ops: seq<Op>)
    ensures |Squash(ops)| <= |ops|
  {
    if ops != [] {
      SquashLength(ops[..|ops| - 1]);
    }
  }
}
