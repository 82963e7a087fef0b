/** deso/block.go: whole transactions and whole blocks, from the generators. */
module Conversion {
  import opened ByteStrings
  import opened Sums
  import opened Int64
  import opened Operations
  import opened SquashInPlace
  import opened Chain
  import opened Translation
  import opened Generators

  /** A generator numbered from the current length extends the list. */
  lemma Join(a: seq<Operation>, b: seq<Operation>, da: seq<Draft>, db: seq<Draft>)
    requires Built(a, Number(da, 0)) && Built(b, Number(db, |a|))
    requires forall x, y :: x in a && y in b ==> x != y && x.amount != y.amount
    ensures Built(a + b, Number(da + db, 0))
  {
    BuiltConcat(a, b, Number(da, 0), Number(db, |a|));
    NumberConcat(da, db, 0);
  }

  lemma SpecialAssoc(p: Params, txn: Txn, ops: seq<UtxoOp>, plain: seq<Draft>, ds: seq<Draft>)
    requires ds == plain + FlatMap(ops, SpendDraft(p)) + FlatMap(ops, ImplicitDraft(p, NumOutputs(txn)))
                   + CreatorCoinDrafts(p, txn, ops) + SwapIdentityDrafts(p, txn, ops) + AcceptNFTDrafts(p, txn, ops)
                   + NFTBidDrafts(p, txn, ops) + UpdateProfileDrafts(p, txn, ops) + DAOCoinDrafts(p, txn, ops)
                   + StakeDrafts(p, txn, ops) + UnstakeDrafts(p, txn, ops) + UnlockDrafts(p, txn, ops)
    ensures ds == plain + SpecialDrafts(p, txn, ops)
  {
    hide FlatMap, CreatorCoinDrafts, SwapIdentityDrafts, AcceptNFTDrafts, NFTBidDrafts,
         UpdateProfileDrafts, DAOCoinDrafts, StakeDrafts, UnstakeDrafts, UnlockDrafts;
  }

  /** Spends and credits of balances, and added entries. */
  method AddTransferOps(p: Params, txn: Txn, ops: seq<UtxoOp>, sofar: seq<Operation>, ghost ds: seq<Draft>)
    returns (r: seq<Operation>)
    requires GenesisInputsExist(p, txn) && Built(sofar, Number(ds, 0))
    ensures Built(r, Number(ds + FlatMap(ops, SpendDraft(p)) + FlatMap(ops, ImplicitDraft(p, NumOutputs(txn))), 0))
    ensures forall o :: o in r ==> o in sofar || (fresh(o) && fresh(o.amount))
  {
    hide Separate, Number, FlatMap, CreatorCoinDrafts, SwapIdentityDrafts, AcceptNFTDrafts, NFTBidDrafts,
         UpdateProfileDrafts, DAOCoinDrafts, StakeDrafts, UnstakeDrafts, UnlockDrafts, GenesisInputsExist, Decimal;
    r := sofar;
    ghost var all := ds;
    var ops0 := GetBalanceModelSpends(p, ops, |r|);
    Join(r, ops0, all, FlatMap(ops, SpendDraft(p)));
    r, all := r + ops0, all + FlatMap(ops, SpendDraft(p));
    var ops1 := GetImplicitOutputs(p, NumOutputs(txn), ops, |r|);
    Join(r, ops1, all, FlatMap(ops, ImplicitDraft(p, NumOutputs(txn))));
    r, all := r + ops1, all + FlatMap(ops, ImplicitDraft(p, NumOutputs(txn)));
  }

  /** Creator-coin trades and identity swaps. */
  method AddCoinOps(p: Params, txn: Txn, ops: seq<UtxoOp>, sofar: seq<Operation>, ghost ds: seq<Draft>)
    returns (r: seq<Operation>)
    requires GenesisInputsExist(p, txn) && Built(sofar, Number(ds, 0))
    ensures Built(r, Number(ds + CreatorCoinDrafts(p, txn, ops) + SwapIdentityDrafts(p, txn, ops), 0))
    ensures forall o :: o in r ==> o in sofar || (fresh(o) && fresh(o.amount))
  {
    hide Separate, Number, FlatMap, CreatorCoinDrafts, SwapIdentityDrafts, AcceptNFTDrafts, NFTBidDrafts,
         UpdateProfileDrafts, DAOCoinDrafts, StakeDrafts, UnstakeDrafts, UnlockDrafts, GenesisInputsExist, Decimal;
    r := sofar;
    ghost var all := ds;
    var ops0 := GetCreatorCoinOps(p, txn, ops, |r|);
    Join(r, ops0, all, CreatorCoinDrafts(p, txn, ops));
    r, all := r + ops0, all + CreatorCoinDrafts(p, txn, ops);
    var ops1 := GetSwapIdentityOps(p, txn, ops, |r|);
    Join(r, ops1, all, SwapIdentityDrafts(p, txn, ops));
    r, all := r + ops1, all + SwapIdentityDrafts(p, txn, ops);
  }

  /** Accepted and buy-now NFT bids. */
  method AddNFTOps(p: Params, txn: Txn, ops: seq<UtxoOp>, sofar: seq<Operation>, ghost ds: seq<Draft>)
    returns (r: seq<Operation>)
    requires GenesisInputsExist(p, txn) && Built(sofar, Number(ds, 0))
    ensures Built(r, Number(ds + AcceptNFTDrafts(p, txn, ops) + NFTBidDrafts(p, txn, ops), 0))
    ensures forall o :: o in r ==> o in sofar || (fresh(o) && fresh(o.amount))
  {
    hide Separate, Number, FlatMap, CreatorCoinDrafts, SwapIdentityDrafts, AcceptNFTDrafts, NFTBidDrafts,
         UpdateProfileDrafts, DAOCoinDrafts, StakeDrafts, UnstakeDrafts, UnlockDrafts, GenesisInputsExist, Decimal;
    r := sofar;
    ghost var all := ds;
    var ops0 := GetAcceptNFTOps(p, txn, ops, |r|);
    Join(r, ops0, all, AcceptNFTDrafts(p, txn, ops));
    r, all := r + ops0, all + AcceptNFTDrafts(p, txn, ops);
    var ops1 := GetBuyNowNFTBidOps(p, txn, ops, |r|);
    Join(r, ops1, all, NFTBidDrafts(p, txn, ops));
    r, all := r + ops1, all + NFTBidDrafts(p, txn, ops);
  }

  /** Profile updates and limit orders. */
  method AddProfileOps(p: Params, txn: Txn, ops: seq<UtxoOp>, sofar: seq<Operation>, ghost ds: seq<Draft>)
    returns (r: seq<Operation>)
    requires GenesisInputsExist(p, txn) && Built(sofar, Number(ds, 0))
    ensures Built(r, Number(ds + UpdateProfileDrafts(p, txn, ops) + DAOCoinDrafts(p, txn, ops), 0))
    ensures forall o :: o in r ==> o in sofar || (fresh(o) && fresh(o.amount))
  {
    hide Separate, Number, FlatMap, CreatorCoinDrafts, SwapIdentityDrafts, AcceptNFTDrafts, NFTBidDrafts,
         UpdateProfileDrafts, DAOCoinDrafts, StakeDrafts, UnstakeDrafts, UnlockDrafts, GenesisInputsExist, Decimal;
    r := sofar;
    ghost var all := ds;
    var ops0 := GetUpdateProfileOps(p, txn, ops, |r|);
    Join(r, ops0, all, UpdateProfileDrafts(p, txn, ops));
    r, all := r + ops0, all + UpdateProfileDrafts(p, txn, ops);
    var ops1 := GetDAOCoinLimitOrderOps(p, txn, ops, |r|);
    Join(r, ops1, all, DAOCoinDrafts(p, txn, ops));
    r, all := r + ops1, all + DAOCoinDrafts(p, txn, ops);
  }

  /** Stake, unstake and unlock. */
  method AddStakeOps(p: Params, txn: Txn, ops: seq<UtxoOp>, sofar: seq<Operation>, ghost ds: seq<Draft>)
    returns (r: seq<Operation>)
    requires GenesisInputsExist(p, txn) && Built(sofar, Number(ds, 0))
    ensures Built(r, Number(ds + StakeDrafts(p, txn, ops) + UnstakeDrafts(p, txn, ops)
                            + UnlockDrafts(p, txn, ops), 0))
    ensures forall o :: o in r ==> o in sofar || (fresh(o) && fresh(o.amount))
  {
    hide Separate, Number, FlatMap, CreatorCoinDrafts, SwapIdentityDrafts, AcceptNFTDrafts, NFTBidDrafts,
         UpdateProfileDrafts, DAOCoinDrafts, StakeDrafts, UnstakeDrafts, UnlockDrafts, GenesisInputsExist, Decimal;
    r := sofar;
    ghost var all := ds;
    var ops8 := GetStakeOps(p, txn, ops, |r|);
    Join(r, ops8, all, StakeDrafts(p, txn, ops));
    r, all := r + ops8, all + StakeDrafts(p, txn, ops);
    var ops9 := GetUnstakeOps(p, txn, ops, |r|);
    Join(r, ops9, all, UnstakeDrafts(p, txn, ops));
    r, all := r + ops9, all + UnstakeDrafts(p, txn, ops);
    var ops10 := GetUnlockStakeOps(p, txn, ops, |r|);
    Join(r, ops10, all, UnlockDrafts(p, txn, ops));
    r, all := r + ops10, all + UnlockDrafts(p, txn, ops);
  }

  /** The operations that depend on the recorded effects, generator by generator. */
  method AddSpecialOps(p: Params, txn: Txn, ops: seq<UtxoOp>, plain: seq<Operation>, ghost ds: seq<Draft>)
    returns (r: seq<Operation>)
    requires GenesisInputsExist(p, txn) && Built(plain, Number(ds, 0))
    ensures Built(r, Number(ds + SpecialDrafts(p, txn, ops), 0))
    ensures forall o :: o in r ==> o in plain || (fresh(o) && fresh(o.amount))
  {
    hide Built, Number, FlatMap, CreatorCoinDrafts, SwapIdentityDrafts, AcceptNFTDrafts, NFTBidDrafts,
         UpdateProfileDrafts, DAOCoinDrafts, StakeDrafts, UnstakeDrafts, UnlockDrafts, GenesisInputsExist;
    ghost var d1 := ds + FlatMap(ops, SpendDraft(p)) + FlatMap(ops, ImplicitDraft(p, NumOutputs(txn)));
    ghost var d2 := d1 + CreatorCoinDrafts(p, txn, ops) + SwapIdentityDrafts(p, txn, ops);
    ghost var d3 := d2 + AcceptNFTDrafts(p, txn, ops) + NFTBidDrafts(p, txn, ops);
    ghost var d4 := d3 + UpdateProfileDrafts(p, txn, ops) + DAOCoinDrafts(p, txn, ops);
    r := AddTransferOps(p, txn, ops, plain, ds);
    r := AddCoinOps(p, txn, ops, r, d1);
    r := AddNFTOps(p, txn, ops, r, d2);
    r := AddProfileOps(p, txn, ops, r, d3);
    r := AddStakeOps(p, txn, ops, r, d4);
    SpecialAssoc(p, txn, ops, ds, d4 + StakeDrafts(p, txn, ops) + UnstakeDrafts(p, txn, ops) + UnlockDrafts(p, txn, ops));
  }

  /** The inputs and, before the balance model, the outputs of a transaction. */
  method GetPlainOps(p: Params, balanceModel: bool, txn: Txn, spent: map<UtxoKey, UInt64>) returns (r: seq<Operation>)
    ensures Built(r, Number(PlainDrafts(p, balanceModel, txn, spent), 0))
    ensures forall o :: o in r ==> fresh(o) && fresh(o.amount)
  {
    r := GetInputs(p, txn, spent);
    ghost var ins := FlatMap(txn.inputs, InputDraft(p, txn.pk, spent));
    hide Built, Number, FlatMap, Negate64;
    assert ins + [] == ins;
    if !balanceModel {
      EmptyFlat(txn.outputs, OutputDraft(p));
      for i := 0 to |txn.outputs|
        invariant Built(r, Number(ins + FlatMap(txn.outputs[..i], OutputDraft(p)), 0))
        invariant forall o :: o in r ==> fresh(o) && fresh(o.amount)
      {
        FlatMapNext(txn.outputs, OutputDraft(p), i);
        ghost var outs := FlatMap(txn.outputs[..i], OutputDraft(p));
        var d := Draft(MainAccount(p, txn.outputs[i].pk), txn.outputs[i].amount, OutputOp);
        assert ins + (outs + [d]) == ins + outs + [d];
        BuiltLength(r, ins + outs);
        r := Emit(r, |r|, d, ins + outs, 0);
      }
      assert txn.outputs[..|txn.outputs|] == txn.outputs;
    }
  }

  method GetInputs(p: Params, txn: Txn, spent: map<UtxoKey, UInt64>) returns (r: seq<Operation>)
    ensures Built(r, Number(FlatMap(txn.inputs, InputDraft(p, txn.pk, spent)), 0))
    ensures forall o :: o in r ==> fresh(o) && fresh(o.amount)
  {
    hide Built, Number, FlatMap, Negate64;
    var f := InputDraft(p, txn.pk, spent);
    r := Nothing(0);
    EmptyFlat(txn.inputs, f);
    for i := 0 to |txn.inputs|
      invariant Built(r, Number(FlatMap(txn.inputs[..i], f), 0))
      invariant forall o :: o in r ==> fresh(o) && fresh(o.amount)
    {
      FlatMapNext(txn.inputs, f, i);
      var k := txn.inputs[i];
      var spentAmount: UInt64 := if k in spent then spent[k] else 0;
      BuiltLength(r, FlatMap(txn.inputs[..i], f));
      r := Emit(r, |r|, Draft(MainAccount(p, txn.pk), Negate64(spentAmount), InputOp), FlatMap(txn.inputs[..i], f), 0);
    }
    assert txn.inputs[..|txn.inputs|] == txn.inputs;
  }

  lemma BuiltLength(r: seq<Operation>, ds: seq<Draft>)
    requires Built(r, Number(ds, 0))
    ensures |r| == |ds|
  {
  }

  method GetLeafOps(p: Params, balanceModel: bool, txn: Txn, ops: seq<UtxoOp>, spent: map<UtxoKey, UInt64>)
    returns (r: seq<Operation>)
    requires GenesisInputsExist(p, txn)
    ensures Built(r, Number(LeafDrafts(p, balanceModel, txn, ops, spent), 0))
    ensures forall o :: o in r ==> fresh(o) && fresh(o.amount)
  {
    hide Built, Number, GenesisInputsExist, PlainDrafts, SpecialDrafts;
    r := GetPlainOps(p, balanceModel, txn, spent);
    ghost var plain := PlainDrafts(p, balanceModel, txn, spent);
    assert plain + [] == plain;
    if |ops| > 0 {
      r := AddSpecialOps(p, txn, ops, r, plain);
    }
  }

  lemma InnerNext(p: Params, balanceModel: bool, txns: seq<Txn>, lists: seq<OpList>, spent: map<UtxoKey, UInt64>, i: nat)
    requires i < |txns| == |lists|
    ensures OpsOfAll(p, balanceModel, txns[..i + 1], lists[..i + 1], spent)
            == OpsOfAll(p, balanceModel, txns[..i], lists[..i], spent) + OpsOf(p, balanceModel, txns[i], lists[i].ops, spent)
  {
    hide OpsOf;
    assert txns[..i + 1][..i] == txns[..i] && lists[..i + 1][..i] == lists[..i];
  }

  method GetOperationsForTransaction(p: Params, balanceModel: bool, txn: Txn, ops: seq<UtxoOp>,
                                     spent: map<UtxoKey, UInt64>) returns (r: seq<Operation>)
    requires GenesisInputsExist(p, txn)
    ensures Built(r, OpsOf(p, balanceModel, txn, ops, spent))
    ensures forall o :: o in r ==> fresh(o) && fresh(o.amount)
    decreases txn
  {
    hide Number, LeafDrafts;
    if !txn.meta.AtomicWrapper? {
      r := GetLeafOps(p, balanceModel, txn, ops, spent);
      return;
    }
    var innerTxns := txn.meta.txns;
    var opsForInnerTxns: seq<OpList> := [];
    var o := FindFirst(ops, IsAtomicWrapper);
    if o.Some? {
      opsForInnerTxns := o.value.inner;
    }
    r := [];
    if |opsForInnerTxns| != |innerTxns| {
      return;
    }
    assert innerTxns[..0] == [] && opsForInnerTxns[..0] == [];
    hide OpsOf;
    for i := 0 to |innerTxns|
      invariant Built(r, OpsOfAll(p, balanceModel, innerTxns[..i], opsForInnerTxns[..i], spent))
      invariant forall o :: o in r ==> fresh(o) && fresh(o.amount)
    {
      InnerNext(p, balanceModel, innerTxns, opsForInnerTxns, spent, i);
      hide OpsOfAll;
      assert innerTxns[i] in innerTxns;
      var more := GetOperationsForTransaction(p, balanceModel, innerTxns[i], opsForInnerTxns[i].ops, spent);
      BuiltConcat(r, more, OpsOfAll(p, balanceModel, innerTxns[..i], opsForInnerTxns[..i], spent),
                  OpsOf(p, balanceModel, innerTxns[i], opsForInnerTxns[i].ops, spent));
      r := r + more;
    }
    assert innerTxns[..|innerTxns|] == innerTxns && opsForInnerTxns[..|innerTxns|] == opsForInnerTxns;
  }

  // ---------------------------------------------------------------- blocks

  /** Every output spent by the block's own lists. */
  method FindSpentUtxos(lists: seq<OpList>) returns (spent: map<UtxoKey, UInt64>)
    ensures spent == SpentUtxos(lists)
  {
    spent := map[];
    for i := 0 to |lists|
      invariant spent == SpentUtxos(lists[..i])
    {
      var ops := lists[i].ops;
      assert lists[..i + 1][..i] == lists[..i];
      ghost var before := spent;
      for j := 0 to |ops|
        invariant spent == SpentIn(ops[..j], before)
      {
        assert ops[..j + 1][..j] == ops[..j];
        if ops[j].SpendUtxo? {
          spent := spent[ops[j].spent.key := ops[j].spent.amount];
        }
      }
      assert ops[..|ops|] == ops;
    }
    assert lists[..|lists|] == lists;
  }

  /** Reads operations out, once nothing will change them any more. */
  method Read(r: seq<Operation>, ghost vs: seq<Op>) returns (ops: seq<Op>)
    requires Show(r, vs)
    ensures ops == vs
  {
    ops := [];
    for i := 0 to |r|
      invariant ops == vs[..i]
    {
      assert r[i].Is(vs[i]);
      ops := ops + [Op(r[i].index, r[i].account, r[i].amount.value, r[i].kind)];
    }
  }

  /** Translates one transaction and squashes its operations in place. */
  method ConvertTransaction(p: Params, balanceModel: bool, txn: Txn, ops: seq<UtxoOp>, spent: map<UtxoKey, UInt64>)
    returns (t: TxnView)
    requires GenesisInputsExist(p, txn)
    ensures t == TxnView(txn.hash, Squash(OpsOf(p, balanceModel, txn, ops, spent)))
  {
    hide OpsOf, Squash, GenesisInputsExist;
    var operations := GetOperationsForTransaction(p, balanceModel, txn, ops, spent);
    var squashed, _ := SquashOperations(operations, OpsOf(p, balanceModel, txn, ops, spent));
    var view := Read(squashed, Squash(OpsOf(p, balanceModel, txn, ops, spent)));
    t := TxnView(txn.hash, view);
  }

  /** The dummy transaction for rewards paid at block level. */
  method ConvertBlockLevel(p: Params, hash: string, ops: seq<UtxoOp>) returns (t: TxnView)
    ensures t == TxnView("blockHash-" + hash, Squash(Number(BlockLevelDrafts(p, ops), 0)))
  {
    hide Squash, Number, FlatMap;
    var r := GetImplicitOutputs(p, 0, ops, 0);
    var rewards := GetStakingRewardDistributionOps(p, ops, |r|);
    Join(r, rewards, FlatMap(ops, ImplicitDraft(p, 0)), FlatMap(ops, RestakeDraft(p)));
    var squashed, _ := SquashOperations(r + rewards, Number(BlockLevelDrafts(p, ops), 0));
    var view := Read(squashed, Squash(Number(BlockLevelDrafts(p, ops), 0)));
    t := TxnView("blockHash-" + hash, view);
  }

  method GetTransactionsForConvertBlock(p: Params, b: Block) returns (ts: seq<TxnView>)
    requires Indexable(b) && forall t :: t in b.txns ==> GenesisInputsExist(p, t)
    ensures ts == Translate(p, b)
  {
    hide Squash, OpsOf, GenesisInputsExist, BlockLevelDrafts, SpentUtxos;
    var spentUtxos := FindSpentUtxos(b.utxoOps);
    ts := [];
    for i := 0 to |b.txns|
      invariant ts == TxnsUpTo(p, b, i)
    {
      var isBalanceModelTxn := false;
      if b.height >= p.balanceModelHeight {
        isBalanceModelTxn := true;
      }
      var utxoOpsForTxn: seq<UtxoOp> := [];
      if |b.utxoOps| > 0 {
        utxoOpsForTxn := b.utxoOps[i].ops;
      }
      assert b.txns[i] in b.txns;
      var transaction := ConvertTransaction(p, isBalanceModelTxn, b.txns[i], utxoOpsForTxn, spentUtxos);
      TxnsNext(p, b, i);
      ts := ts + [transaction];
    }
    if |b.utxoOps| == |b.txns| + 1 {
      var transaction := ConvertBlockLevel(p, b.hash, b.utxoOps[|b.utxoOps| - 1].ops);
      ts := ts + [transaction];
    }
  }
}
